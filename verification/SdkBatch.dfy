// Client-side batches: chunked submission that can be resumed, and milestone
// schedules made of several escrows.
module SdkBatch {
  import opened Prelude
  import Amounts

  const MAX_BATCH_SIZE: int := 16
  const MAX_CONDITION_REF_LENGTH: int := 64
  const I128_MAX: int := 0x7FFF_FFFF_FFFF_FFFF_FFFF_FFFF_FFFF_FFFF

  // ---- one batch call ----------------------------------------------------

  /** How one attempt ended: a transaction hash, with an id when it created an escrow, or an error. */
  datatype Reply = Sent(txHash: string, escrowId: Option<nat>) | Threw(message: string)

  datatype ItemResult<T> = ItemResult(index: int, item: T, ok: bool, skipped: bool,
                                      txHash: Option<string>, escrowId: Option<nat>, error: Option<string>)

  /** A batch call returns its results or throws an error that carries them. */
  datatype BatchOutcome<T> = Returned(results: seq<ItemResult<T>>) | PartialFailure(results: seq<ItemResult<T>>)

  /** A chunk size as requested: nothing, not a finite number, or a number. */
  datatype Requested = Unset | NotFinite | Finite(size: real)

  function ResolveChunkSize(requested: Requested): (size: int)
    ensures 1 <= size <= 16
    ensures !requested.Finite? || requested.size < 1.0 || requested.size >= 16.0 ==> size == 16
    ensures requested.Finite? && 1.0 <= requested.size < 16.0 ==> size as real <= requested.size < size as real + 1.0
  {
    if !requested.Finite? || requested.size < 1.0 then MAX_BATCH_SIZE
    else if requested.size.Floor < MAX_BATCH_SIZE then requested.size.Floor
    else MAX_BATCH_SIZE
  }

  function Fresh<T>(items: seq<T>, i: nat): ItemResult<T>
    requires i < |items|
  {
    ItemResult(i, items[i], false, false, None, None, None)
  }

  /** The last success reported for an index. */
  function LastOk<T>(resume: seq<ItemResult<T>>, i: nat): Option<ItemResult<T>> {
    if resume == [] then None
    else
      var n := |resume| - 1;
      if resume[n].ok && resume[n].index == i then Some(resume[n]) else LastOk(resume[..n], i)
  }

  /** Where a call starts for an index: the carried-over success, or nothing yet. */
  function Start<T>(items: seq<T>, resume: seq<ItemResult<T>>, i: nat): ItemResult<T>
    requires i < |items|
  {
    match LastOk(resume, i)
    case None => Fresh(items, i)
    case Some(prior) => prior.(item := items[i], skipped := true)
  }

  function Starts<T>(items: seq<T>, resume: seq<ItemResult<T>>): seq<ItemResult<T>> {
    seq(|items|, i requires 0 <= i < |items| => Start(items, resume, i))
  }

  /** The last success reported for an index, if any, realigned with the input; otherwise nothing yet. */
  ghost predicate CarriesOver<T>(items: seq<T>, resume: seq<ItemResult<T>>, i: nat, r: ItemResult<T>)
    requires i < |items|
  {
    if Reported(resume, i) then exists n :: 0 <= n < |resume| && LastReport(resume, i, n) && r == resume[n].(item := items[i], skipped := true)
    else r == ItemResult(i, items[i], false, false, None, None, None)
  }

  predicate Reported<T>(resume: seq<ItemResult<T>>, i: nat) {
    exists n :: 0 <= n < |resume| && resume[n].ok && resume[n].index == i
  }

  predicate LastReport<T>(resume: seq<ItemResult<T>>, i: nat, n: nat)
    requires n < |resume|
  {
    resume[n].ok && resume[n].index == i && forall m :: n < m < |resume| ==> !(resume[m].ok && resume[m].index == i)
  }

  lemma {:induction false} LastOkMeaning<T>(resume: seq<ItemResult<T>>, i: nat)
    ensures LastOk(resume, i).Some? <==> Reported(resume, i)
    ensures LastOk(resume, i).Some? ==>
              exists n :: 0 <= n < |resume| && LastReport(resume, i, n) && LastOk(resume, i).value == resume[n]
  {
    if resume != [] {
      var n := |resume| - 1;
      var front := resume[..n];
      LastOkMeaning(front, i);
      assert forall m :: 0 <= m < n ==> front[m] == resume[m];
      if resume[n].ok && resume[n].index == i {
        assert LastReport(resume, i, n);
      } else if LastOk(front, i).Some? {
        var k :| 0 <= k < |front| && LastReport(front, i, k) && LastOk(front, i).value == front[k];
        assert LastReport(resume, i, k);
      }
    }
  }

  lemma StartMeaning<T>(items: seq<T>, resume: seq<ItemResult<T>>, i: nat)
    requires i < |items|
    ensures CarriesOver(items, resume, i, Start(items, resume, i))
  {
    LastOkMeaning(resume, i);
  }

  method BatchResults<T>(items: seq<T>, resume: seq<ItemResult<T>>) returns (results: seq<ItemResult<T>>)
    ensures results == Starts(items, resume)
    ensures |results| == |items| && forall i :: 0 <= i < |items| ==> CarriesOver(items, resume, i, results[i])
  {
    hide CarriesOver;
    forall i | 0 <= i < |items| ensures CarriesOver(items, resume, i, Start(items, resume, i)) {
      StartMeaning(items, resume, i);
    }
    results := seq(|items|, i requires 0 <= i < |items| => Fresh(items, i));
    for n := 0 to |resume|
      invariant results == Starts(items, resume[..n])
    {
      var prior := resume[n];
      assert resume[..n + 1][..n] == resume[..n];
      if !prior.ok || prior.index < 0 || prior.index >= |results| { continue; }
      results := results[prior.index := prior.(item := items[prior.index], skipped := true)];
    }
    assert resume[..|resume|] == resume;
  }

  function Answer<T>(items: seq<T>, i: nat, reply: Reply): ItemResult<T>
    requires i < |items|
  {
    match reply
    case Sent(txHash, escrowId) => ItemResult(i, items[i], true, false, Some(txHash), escrowId, None)
    case Threw(message) => ItemResult(i, items[i], false, false, None, None, Some(message))
  }

  /** The results of a call: every index not yet successful is attempted and takes its answer. */
  function Results<T>(items: seq<T>, resume: seq<ItemResult<T>>, replies: nat -> Reply): seq<ItemResult<T>> {
    seq(|items|, i requires 0 <= i < |items| =>
      if Start(items, resume, i).ok then Start(items, resume, i) else Answer(items, i, replies(i)))
  }

  /** The indices below `n` that are not successful yet. */
  function Open<T>(results: seq<ItemResult<T>>, n: nat): seq<nat>
    requires n <= |results|
  {
    if n == 0 then [] else Open(results, n - 1) + if results[n - 1].ok then [] else [n - 1]
  }

  /** They are each listed once, in input order. */
  lemma {:induction false} OpenMeaning<T>(results: seq<ItemResult<T>>, n: nat)
    requires n <= |results|
    ensures forall i :: i in Open(results, n) <==> 0 <= i < n && !results[i].ok
    ensures forall j, k :: 0 <= j < k < |Open(results, n)| ==> Open(results, n)[j] < Open(results, n)[k]
  {
    if n > 0 {
      OpenMeaning(results, n - 1);
      var front := Open(results, n - 1);
      assert forall j :: 0 <= j < |front| ==> front[j] in front;
    }
  }

  function Min(a: nat, b: nat): (m: nat)
    ensures m <= a && m <= b && (m == a || m == b)
  {
    if a < b then a else b
  }

  /** The call's results up to index `n`, and where it started from there on. */
  ghost function Mixed<T>(done: seq<T>, starts: seq<T>, n: nat): (mixed: seq<T>)
    requires n <= |starts| == |done|
    ensures |mixed| == |done|
  {
    done[..n] + starts[n..]
  }

  lemma MixedStep<T>(done: seq<T>, starts: seq<T>, n: nat)
    requires n < |starts| == |done|
    ensures Mixed(done, starts, n)[n] == starts[n]
    ensures Mixed(done, starts, n + 1) == Mixed(done, starts, n)[n := done[n]]
  {
  }

  lemma MixedEnds<T>(done: seq<T>, starts: seq<T>)
    requires |starts| == |done|
    ensures Mixed(done, starts, 0) == starts && Mixed(done, starts, |done|) == done
  {
  }

  lemma ResultsAt<T>(items: seq<T>, resume: seq<ItemResult<T>>, replies: nat -> Reply)
    ensures var starts, done := Starts(items, resume), Results(items, resume, replies);
            && |starts| == |done| == |items|
            && forall i :: 0 <= i < |items| ==> done[i] == if starts[i].ok then starts[i] else Answer(items, i, replies(i))
  {
    hide Start, Answer;
  }

  lemma NoneOpen<T>(results: seq<ItemResult<T>>)
    ensures Open(results, 0) == []
  {
  }

  lemma OpenNext<T>(results: seq<ItemResult<T>>, n: nat)
    requires n < |results|
    ensures Open(results, n + 1) == Open(results, n) + if results[n].ok then [] else [n]
  {
  }

  /** The batched call, chunk by chunk. Its attempts and results do not depend on the chunk size. */
  method SendBatch<T>(items: seq<T>, resume: seq<ItemResult<T>>, requested: Requested, replies: nat -> Reply)
    returns (outcome: BatchOutcome<T>, attempts: seq<nat>)
    ensures attempts == Open(Starts(items, resume), |items|)
    ensures outcome.results == Results(items, resume, replies)
    ensures outcome.Returned? <==> AllOk(outcome.results)
  {
    hide Start, Starts, Results, ResolveChunkSize, Answer, Mixed, CarriesOver, Open;
    var results := BatchResults(items, resume);
    ghost var starts, done := Starts(items, resume), Results(items, resume, replies);
    ResultsAt(items, resume, replies);
    NoneOpen(starts);
    var chunkSize := ResolveChunkSize(requested);
    attempts := [];
    MixedEnds(done, starts);
    var start := 0;
    while start < |items|
      invariant 0 <= start
      invariant attempts == Open(starts, Min(start, |items|))
      invariant results == Mixed(done, starts, Min(start, |items|))
    {
      var end := Min(start + chunkSize, |items|);
      for index := start to end
        invariant attempts == Open(starts, index)
        invariant results == Mixed(done, starts, index)
      {
        MixedStep(done, starts, index);
        OpenNext(starts, index);
        if results[index].ok { continue; }
        attempts := attempts + [index];
        results := results[index := Answer(items, index, replies(index))];
      }
      start := start + chunkSize;
    }
    if exists i :: 0 <= i < |results| && !results[i].ok {
      return PartialFailure(results), attempts;
    }
    outcome := Returned(results);
  }

  // ---- a chain of retries ------------------------------------------------

  /** The results after a chain of calls, each resuming from the one before. */
  function Chain<T>(items: seq<T>, calls: seq<nat -> Reply>): seq<ItemResult<T>> {
    if calls == [] then []
    else Results(items, Chain(items, calls[..|calls| - 1]), calls[|calls| - 1])
  }

  /** Call `k` of the chain attempted the item. */
  predicate Attempted<T>(items: seq<T>, calls: seq<nat -> Reply>, k: nat, i: nat)
    requires k < |calls| && i < |items|
  {
    !Start(items, Chain(items, calls[..k]), i).ok
  }

  predicate Succeeded<T>(items: seq<T>, calls: seq<nat -> Reply>, k: nat, i: nat)
    requires k < |calls| && i < |items|
  {
    Attempted(items, calls, k, i) && calls[k](i).Sent?
  }

  /** Some call of the chain succeeded on the item. */
  predicate SucceededInSome<T>(items: seq<T>, calls: seq<nat -> Reply>, i: nat)
    requires i < |items|
  {
    exists k :: 0 <= k < |calls| && Succeeded(items, calls, k, i)
  }

  predicate AllOk<T>(results: seq<ItemResult<T>>) { forall i :: 0 <= i < |results| ==> results[i].ok }

  ghost predicate Aligned<T>(items: seq<T>, results: seq<ItemResult<T>>) {
    && |results| == |items|
    && forall i :: 0 <= i < |items| ==> IsFor(items, results, i)
  }

  ghost predicate IsFor<T>(items: seq<T>, results: seq<ItemResult<T>>, i: nat)
    requires i < |items| == |results|
  {
    results[i].index == i && results[i].item == items[i]
  }

  /** Resuming from aligned results carries over exactly the successful ones. */
  lemma StartAligned<T>(items: seq<T>, resume: seq<ItemResult<T>>, i: nat)
    requires i < |items| && (resume == [] || Aligned(items, resume))
    ensures Start(items, resume, i).index == i && Start(items, resume, i).item == items[i]
    ensures Start(items, resume, i).ok <==> resume != [] && resume[i].ok
    ensures resume != [] && resume[i].ok ==> Start(items, resume, i) == resume[i].(skipped := true)
  {
    if resume != [] {
      LastOkAligned(items, resume, i, |resume|);
      assert IsFor(items, resume, i);
    }
    assert resume[..|resume|] == resume;
  }

  lemma {:induction false} LastOkAligned<T>(items: seq<T>, resume: seq<ItemResult<T>>, i: nat, n: nat)
    requires Aligned(items, resume) && i < |items| && n <= |items|
    ensures LastOk(resume[..n], i) == if i < n && resume[i].ok then Some(resume[i]) else None
  {
    if n > 0 {
      assert resume[..n][..n - 1] == resume[..n - 1];
      LastOkAligned(items, resume, i, n - 1);
      assert IsFor(items, resume, n - 1);
    }
  }

  lemma {:induction false} ChainAligned<T>(items: seq<T>, calls: seq<nat -> Reply>)
    ensures if calls == [] then Chain(items, calls) == [] else Aligned(items, Chain(items, calls))
  {
    hide Start;
    if calls != [] {
      var before, after := Chain(items, calls[..|calls| - 1]), Chain(items, calls);
      ChainAligned(items, calls[..|calls| - 1]);
      forall i | 0 <= i < |items| ensures IsFor(items, after, i) {
        StartAligned(items, before, i);
        assert after[i] == if Start(items, before, i).ok then Start(items, before, i) else Answer(items, i, calls[|calls| - 1](i));
      }
    }
  }

  /** What the next call of a chain does for one item. */
  lemma ChainStep<T>(items: seq<T>, calls: seq<nat -> Reply>, i: nat)
    requires i < |items| && calls != []
    ensures var n := |calls| - 1; var before := Chain(items, calls[..n]);
            && |Chain(items, calls)| == |items| && (n > 0 ==> |before| == |items|)
            && (Attempted(items, calls, n, i) <==> n == 0 || !before[i].ok)
            && Chain(items, calls)[i] == (if !Attempted(items, calls, n, i) then before[i].(skipped := true)
                                          else match calls[n](i)
                                               case Sent(txHash, escrowId) =>
                                                 ItemResult(i, items[i], true, false, Some(txHash), escrowId, None)
                                               case Threw(message) =>
                                                 ItemResult(i, items[i], false, false, None, None, Some(message)))
  {
    hide Start;
    var n := |calls| - 1;
    ChainAligned(items, calls[..n]);
    StartAligned(items, Chain(items, calls[..n]), i);
  }

  lemma AttemptedLocal<T>(items: seq<T>, calls: seq<nat -> Reply>, n: nat, k: nat, i: nat)
    requires k < n <= |calls| && i < |items|
    ensures Attempted(items, calls, k, i) == Attempted(items, calls[..n], k, i)
  {
    assert calls[..n][..k] == calls[..k];
  }

  /** After a chain an item is successful exactly when one of the calls succeeded on it, and then its
      result carries that call's transaction; once a call succeeded on it no later call attempts it. */
  lemma {:induction false} SucceedsAtMostOnce<T>(items: seq<T>, calls: seq<nat -> Reply>, i: nat)
    requires i < |items| && calls != []
    ensures |Chain(items, calls)| == |items|
    ensures Chain(items, calls)[i].ok <==> SucceededInSome(items, calls, i)
    ensures forall k :: 0 <= k < |calls| && Succeeded(items, calls, k, i) ==>
              Chain(items, calls)[i].txHash == Some(calls[k](i).txHash) && Chain(items, calls)[i].escrowId == calls[k](i).escrowId
    ensures forall j, k :: 0 <= j < k < |calls| && Succeeded(items, calls, j, i) ==> !Attempted(items, calls, k, i)
  {
    hide Start, Chain, Attempted;
    ChainStep(items, calls, i);
    var n := |calls| - 1;
    assert Succeeded(items, calls, n, i) <==> Attempted(items, calls, n, i) && calls[n](i).Sent?;
    var front := calls[..n];
    forall k | 0 <= k < n
      ensures Attempted(items, calls, k, i) == Attempted(items, front, k, i)
      ensures Succeeded(items, calls, k, i) == Succeeded(items, front, k, i)
    {
      AttemptedLocal(items, calls, n, k, i);
    }
    if front != [] {
      SucceedsAtMostOnce(items, front, i);
      if SucceededInSome(items, front, i) {
        var k :| 0 <= k < n && Succeeded(items, front, k, i);
        assert Succeeded(items, calls, k, i);
      }
    }
  }

  /** The last call of a chain returns normally exactly when every item has succeeded in some call. */
  lemma ReturnsWhenAllSucceeded<T>(items: seq<T>, calls: seq<nat -> Reply>)
    requires calls != []
    ensures Chain(items, calls) == Results(items, Chain(items, calls[..|calls| - 1]), calls[|calls| - 1])
    ensures AllOk(Chain(items, calls)) <==> forall i :: 0 <= i < |items| ==> SucceededInSome(items, calls, i)
  {
    hide SucceededInSome;
    forall i | 0 <= i < |items| ensures Chain(items, calls)[i].ok <==> SucceededInSome(items, calls, i) {
      SucceedsAtMostOnce(items, calls, i);
    }
  }

  // ---- milestone schedules -----------------------------------------------

  datatype ScheduleError =
    | NonPositiveAmount | EmptySchedule | NonPositiveTranche(index: nat) | TrancheTooLarge(index: nat)
    | TotalTooLarge | SumMismatch | RefTooLong

  function Total(milestones: seq<int>): int {
    if milestones == [] then 0 else Total(milestones[..|milestones| - 1]) + milestones[|milestones| - 1]
  }

  /** Positive tranches that add up to a representable amount. */
  predicate GoodSchedule(milestones: seq<int>, amount: int) {
    && 0 < amount <= 170141183460469231731687303715884105727 && milestones != []
    && (forall i :: 0 <= i < |milestones| ==> milestones[i] > 0)
    && Total(milestones) == amount
  }

  lemma {:induction false} TotalBounds(milestones: seq<int>, n: nat)
    requires n <= |milestones| && forall i :: n <= i < |milestones| ==> milestones[i] > 0
    ensures Total(milestones[..n]) <= Total(milestones)
    ensures n < |milestones| ==> Total(milestones[..n]) < Total(milestones)
    decreases |milestones| - n
  {
    if n == |milestones| {
      assert milestones[..n] == milestones;
    } else {
      TotalBounds(milestones, n + 1);
      assert milestones[..n + 1][..n] == milestones[..n];
    }
  }

  method ValidateMilestoneSchedule(milestones: seq<int>, amount: int) returns (error: Option<ScheduleError>)
    ensures error.None? <==> GoodSchedule(milestones, amount)
    ensures error == Some(SumMismatch) ==> amount != Total(milestones) && forall i :: 0 <= i < |milestones| ==> milestones[i] > 0
    ensures error.Some? && error.value.NonPositiveTranche? ==>
              error.value.index < |milestones| && milestones[error.value.index] <= 0
              && forall i :: 0 <= i < error.value.index ==> milestones[i] > 0
  {
    if amount <= 0 { return Some(NonPositiveAmount); }
    if milestones == [] { return Some(EmptySchedule); }
    var sum := 0;
    for index := 0 to |milestones|
      invariant sum == Total(milestones[..index]) && 0 <= sum <= I128_MAX
      invariant forall i :: 0 <= i < index ==> milestones[i] > 0
    {
      var tranche := milestones[index];
      assert milestones[..index + 1][..index] == milestones[..index];
      if tranche <= 0 { return Some(NonPositiveTranche(index)); }
      if forall i :: 0 <= i < |milestones| ==> milestones[i] > 0 { TotalBounds(milestones, index + 1); }
      if tranche > I128_MAX { return Some(TrancheTooLarge(index)); }
      sum := sum + tranche;
      if sum > I128_MAX { return Some(TotalTooLarge); }
    }
    assert milestones[..|milestones|] == milestones;
    if sum != amount { return Some(SumMismatch); }
    error := None;
  }

  /** `<base>#m<index+1>/<count>` */
  function TrancheRef(base: string, index: nat, count: nat): string {
    base + "#m" + Amounts.Decimal(index + 1) + "/" + Amounts.Decimal(count)
  }

  function MilestoneConditionRef(base: string, index: nat, count: nat): Option<string> {
    if |TrancheRef(base, index, count)| > MAX_CONDITION_REF_LENGTH then None else Some(TrancheRef(base, index, count))
  }

  /** Texts with the same last separator have the same parts. */
  lemma SplitUnique(a: string, b: string, c: string, d: string, sep: char)
    requires a + [sep] + b == c + [sep] + d && sep !in b && sep !in d
    ensures a == c && b == d
  {
    var s := a + [sep] + b;
    assert s[|a|] == sep && s[|c|] == sep;
    assert forall i :: |a| < i < |s| ==> s[i] == b[i - |a| - 1];
    assert forall i :: |c| < i < |s| ==> s[i] == d[i - |c| - 1];
    assert |a| == |c|;
    assert a == s[..|a|] && c == s[..|c|] && b == s[|a| + 1..] && d == s[|c| + 1..];
  }

  lemma DecimalInjective(m: nat, n: nat)
    requires Amounts.Decimal(m) == Amounts.Decimal(n)
    ensures m == n
  {
    Amounts.ValueDecimal(m);
    Amounts.ValueDecimal(n);
  }

  /** A tranche's reference tells its group, its position and the size of its schedule. */
  lemma RefsIdentify(base: string, index: nat, count: nat, base': string, index': nat, count': nat)
    requires TrancheRef(base, index, count) == TrancheRef(base', index', count')
    ensures base == base' && index == index' && count == count'
  {
    var i, c, i', c' := Amounts.Decimal(index + 1), Amounts.Decimal(count), Amounts.Decimal(index' + 1), Amounts.Decimal(count');
    var tag, tag' := "m" + i + "/" + c, "m" + i' + "/" + c';
    assert TrancheRef(base, index, count) == base + "#" + tag;
    assert TrancheRef(base', index', count') == base' + "#" + tag';
    SplitUnique(base, tag, base', tag', '#');
    assert tag == ("m" + i) + "/" + c && tag' == ("m" + i') + "/" + c';
    SplitUnique("m" + i, c, "m" + i', c', '/');
    assert i == ("m" + i)[1..] && i' == ("m" + i')[1..];
    DecimalInjective(index + 1, index' + 1);
    DecimalInjective(count, count');
  }

  /** The first of three tranches, and the tag of any tranche read back digit by digit. */
  lemma RefText(base: string, index: nat, count: nat)
    ensures TrancheRef("inv-7", 0, 3) == "inv-7#m1/3"
    ensures var position, total := Amounts.Decimal(index + 1), Amounts.Decimal(count);
            && TrancheRef(base, index, count) == base + "#m" + position + "/" + total
            && Amounts.Value(position) == index + 1 && Amounts.Value(total) == count
  {
    Amounts.ValueDecimal(index + 1);
    Amounts.ValueDecimal(count);
  }

  datatype Creation = Created(id: nat) | CreationFailed

  /** One create call: the tranche's amount and its reference. */
  datatype Request = Request(amount: int, conditionRef: string)

  datatype Milestone = Milestone(index: nat, amount: int, escrowId: nat)

  datatype GroupOutcome =
    | Grouped(milestones: seq<Milestone>)
    | Rejected(error: ScheduleError)
    | Partial(createdIds: seq<nat>, failedAt: nat, total: nat)

  function Requests(schedule: seq<int>, base: string, n: nat): (requests: seq<Request>)
    requires n <= |schedule|
    ensures |requests| == n
  {
    seq(n, i requires 0 <= i < n => Request(schedule[i], TrancheRef(base, i, |schedule|)))
  }

  /** Nothing is sent for a bad schedule; otherwise the tranches are created in order up to the first
      failure, and a complete group locks exactly the amount. */
  method CreateMilestoneEscrow(schedule: seq<int>, amount: int, base: string, replies: nat -> Creation)
    returns (outcome: GroupOutcome, sent: seq<Request>)
    ensures outcome.Rejected? <==>
              !GoodSchedule(schedule, amount) || exists i :: 0 <= i < |schedule| && |TrancheRef(base, i, |schedule|)| > 64
    ensures outcome.Rejected? ==> sent == []
    ensures outcome.Grouped? ==>
              && sent == Requests(schedule, base, |schedule|) && Total(schedule) == amount
              && |outcome.milestones| == |schedule|
              && forall i :: 0 <= i < |schedule| ==>
                   replies(i).Created? && outcome.milestones[i] == Milestone(i, schedule[i], replies(i).id)
    ensures outcome.Partial? ==>
              && outcome.failedAt < |schedule| == outcome.total && replies(outcome.failedAt).CreationFailed?
              && sent == Requests(schedule, base, outcome.failedAt + 1)
              && |outcome.createdIds| == outcome.failedAt
              && forall i :: 0 <= i < outcome.failedAt ==> replies(i) == Created(outcome.createdIds[i])
  {
    hide TrancheRef;
    sent := [];
    var error := ValidateMilestoneSchedule(schedule, amount);
    if error.Some? { return Rejected(error.value), sent; }
    var refs: seq<string> := [];
    for index := 0 to |schedule|
      invariant |refs| == index
      invariant forall i :: 0 <= i < index ==> MilestoneConditionRef(base, i, |schedule|) == Some(refs[i])
      invariant forall i :: 0 <= i < index ==> |TrancheRef(base, i, |schedule|)| <= 64
    {
      var ref := MilestoneConditionRef(base, index, |schedule|);
      assert ref.None? <==> |TrancheRef(base, index, |schedule|)| > 64;
      if ref.None? { return Rejected(RefTooLong), sent; }
      refs := refs + [ref.value];
    }
    var created: seq<Milestone> := [];
    var ids: seq<nat> := [];
    for index := 0 to |schedule|
      invariant sent == Requests(schedule, base, index)
      invariant |created| == |ids| == index
      invariant forall i :: 0 <= i < index ==>
                  replies(i).Created? && ids[i] == replies(i).id && created[i] == Milestone(i, schedule[i], replies(i).id)
    {
      sent := sent + [Request(schedule[index], refs[index])];
      var reply := replies(index);
      if reply.CreationFailed? { return Partial(ids, index, |schedule|), sent; }
      created := created + [Milestone(index, schedule[index], reply.id)];
      ids := ids + [reply.id];
    }
    outcome := Grouped(created);
  }
}
