# Verification of the escrow repository

Dafny models of the repository's core logic, with proofs. The whole project is checked with
`dafny verify dfyconfig.toml`.

- **The escrow contract** (`Escrow*.dfy`). `EscrowTypes` holds records, storage and token ledgers;
  `EscrowRules` the checks of every entry point in the code's order; `EscrowMoves` what a successful call
  does, when it is permitted, and the invariant; `EscrowContract` the contract as a class whose methods write
  field by field, call out to tokens and payees, and are rolled back on failure. Runs are sequences of signed
  calls, clock moves and outside token activity (`EscrowRuns`, `EscrowTraces`). On top stand safety
  (`EscrowSafety`), freedom from defensive failures (`EscrowSuccess`), each call's exact success condition, whole
  effect and truthful errors (`EscrowCalls`), authority and conservation over runs
  (`EscrowHistory`), batch refinement (`EscrowBatch`), freedom from stuck funds (`EscrowExit`) and the
  independence of claim order (`EscrowClaims`).
- **The releaser account** (`ReleaserAccount.dfy`): an M-of-N signer set with nonce-protected management and a
  windowed rate limit.
- **The indexer** (`Indexer.dfy`): the event handler as a fold, tied to the contract's own event stream.
- **Clients and scripts**: decimal amounts (`Amounts.dfy`), the Go value codec (`ScVal.dfy`), the multisig
  builder and verifier (`Multisig.dfy`), the crash-resumable settlement driver (`SettleOutcomes.dfy`), resumable
  batches and milestone schedules (`SdkBatch.dfy`).

Authorization is the set of addresses that signed a call; the contract's own address never signs. What tokens,
payees, submit commands and the network answer is a parameter of each call. A rule is a function of storage; a
method of a class is proved to end in the state its rule prescribes; the theorems are about the rules and about
runs of them.

## Model

| member | source | states |
|---|---|---|
| EscrowTraces.ReachableSolvency | contracts/escrow/src/lib.rs:927-942 | In every state reachable from a deployment by any calls, clock moves and outside token activity, each token's counter equals the sum of `amount` over its `Funded` escrows, the contract's balance covers it, and the separate `Status` map agrees with the records. |
| EscrowTraces.InvOverRuns | contracts/escrow/src/lib.rs:232-254 | The full invariant (ids, status cache, record well-formedness, pool accounting, contributors, books, honest ledgers) holds at the end of every run from a state that meets it. |
| EscrowTraces.SurplusOverRuns | contracts/escrow/src/lib.rs:1880-1929 | Balance minus liability of any token never decreases over a run. |
| EscrowTraces.ExecPermits | contracts/escrow/src/lib.rs:440-1871 | A successful call, single or batch, is a chain of moves each permitted in the state it is made in; a batch consists of creations only or settlements only. |
| EscrowTraces.DeployedInv | contracts/escrow/src/lib.rs:400-408 | A fresh deployment meets the invariant. |
| EscrowSafety.MoveKeepsInv | contracts/escrow/src/lib.rs:1902-1929 | Every permitted move of the ledger keeps the whole invariant. |
| EscrowSafety.MoveKeepsSurplus | contracts/escrow/src/lib.rs:1461-1565 | No move shrinks any token's surplus, and it grows only when a release pays the contract's own address. |
| EscrowSafety.OpenKeepsInv | contracts/escrow/src/lib.rs:1350-1386 | A creation, whose transfer, counter, record and status are four separate writes, keeps the invariant. |
| EscrowSafety.TopUpKeepsInv | contracts/escrow/src/lib.rs:1025-1069 | A top-up keeps record, counter, balance and fee bound together. |
| EscrowSafety.ContributeKeepsInv | contracts/escrow/src/lib.rs:808-859 | A contribution keeps pooled amount = sum of non-refunded records, at most the target. |
| EscrowSafety.NoneRefundedYet | contracts/escrow/src/lib.rs:821-830 | While a pool is open or full none of its records is refunded, so a refunded contributor can never contribute again. |
| EscrowSafety.ClaimFacts | contracts/escrow/src/lib.rs:883-912 | A claim's amount is positive, at most the pool's amount, itself at most the counter and the balance; the pool's accounting survives it. |
| EscrowSafety.MarkedClaimedKeepsInv | contracts/escrow/src/lib.rs:899-912 | Between a claim's writes and its token call storage already meets the invariant. |
| EscrowSafety.ClosedKeepsInv | contracts/escrow/src/lib.rs:1504-1516 | Between a settlement's writes and its first token call storage already meets the invariant. |
| EscrowSafety.SettleKeepsInv | contracts/escrow/src/lib.rs:1461-1565 | A completed settlement keeps the invariant whoever the payees are, including the contract itself. |
| EscrowSafety.RotateKeepsInv | contracts/escrow/src/lib.rs:982-1021 | A releaser rotation keeps the invariant. |
| EscrowSafety.RedirectKeepsInv | contracts/escrow/src/lib.rs:1836-1871 | A payee transfer keeps the invariant. |
| EscrowSafety.ShareBound | contracts/escrow/src/lib.rs:1677-1682 | The fee share is the floor of amount * bps / 10000 and at most a tenth of the amount. |
| EscrowSafety.AmountWithinLiability | contracts/escrow/src/lib.rs:1917-1929 | On a state that meets the invariant the counter subtraction of a settlement can never go below zero. |
| EscrowRuns.RulePermits | contracts/escrow/src/lib.rs:1087-1270 | Whatever call succeeds, its move satisfies the order-free permission of that move: signatures, quorum, gates, amounts. |
| EscrowRuns.ScanMeaning | contracts/escrow/src/lib.rs:1431-1451 | The approval scan accepts exactly the lists of distinct stored releasers who all signed. |
| EscrowRuns.ApprovalsQuorum | contracts/escrow/src/lib.rs:1431-1451 | Accepted approvals are a quorum: at least `threshold` distinct stored releasers signed. |
| EscrowRuns.SingleCallerQuorum | contracts/escrow/src/lib.rs:1417-1425 | The single-caller path is a quorum of one. |
| EscrowContract.NestedPaymentRejected | contracts/escrow/src/lib.rs:1504-1516 | Once an escrow or claim is marked paid, every call that would pay it again fails, whoever signs it, also inside a batch. |
| EscrowContract.PaidStatesKeepInv | contracts/escrow/src/lib.rs:1504-1542 | At each point between a settlement's writes, its fee transfer and its payout transfer the whole invariant holds. |
| EscrowContract.EscrowContract.constructor | contracts/escrow/src/lib.rs:400-408 | Deployment yields the empty ledger, which meets the invariant. |
| EscrowContract.EscrowContract.CallTransfer | contracts/escrow/src/lib.rs:1518-1542 | An outbound transfer may only be made while the full invariant holds and the payment in progress is already spent. |
| EscrowContract.EscrowContract.CallPayee | contracts/escrow/src/lib.rs:1543-1556 | The payee callback is only made under the same conditions. |
| EscrowContract.EscrowContract.TransferInExact | contracts/escrow/src/lib.rs:1880-1899 | A deposit is accepted exactly when the balance rose by `amount`; then the counter rises by `amount`. |
| EscrowContract.EscrowContract.AddLiability | contracts/escrow/src/lib.rs:1909-1915 | Adds to one token's counter or overflows; no other entry changes. |
| EscrowContract.EscrowContract.SubLiability | contracts/escrow/src/lib.rs:1917-1929 | Subtracts from one token's counter or fails, never leaving it negative. |
| EscrowContract.EscrowContract.Settle | contracts/escrow/src/lib.rs:1461-1565 | A settlement that completes leaves the record closed, the counter lowered, its event published, and the payee and fee recipient paid (release) or `refund_to` paid (refund, cancel); the invariant holds at every call out. |
| EscrowContract.EscrowContract.Disburse | contracts/escrow/src/lib.rs:1518-1556 | Fee, payout and callback in order, each refusing as the code does, with the invariant at every call; on success the payee and fee recipient, or `refund_to`, hold what they are due. |
| EscrowContract.EscrowContract.CreateEscrowInner | contracts/escrow/src/lib.rs:1272-1386 | Every check in order with its error; on success the record holds each of the caller's terms field by field under the next id, with its status, counter, balance and event. |
| EscrowContract.EscrowContract.CreatePooled | contracts/escrow/src/lib.rs:704-788 | Pooled creation: its checks in order, a record with amount zero and plain terms, and the funding terms. |
| EscrowContract.EscrowContract.TopUp | contracts/escrow/src/lib.rs:1025-1069 | Top-up: its checks in order, the fee re-check, and the grown record. |
| EscrowContract.EscrowContract.Contribute | contracts/escrow/src/lib.rs:808-859 | Contribution: succeeds exactly when admissible, the last admissible one reaching the target; its checks in order, the transfer, and the contributor's accumulated record. |
| EscrowContract.EscrowContract.ClaimRefund | contracts/escrow/src/lib.rs:874-925 | Claim: its checks in order, mark before pay, and exactly the recorded amount. |
| EscrowContract.EscrowContract.Accept | contracts/escrow/src/lib.rs:554-581 | Acceptance: its checks in order and the recorded time. |
| EscrowContract.EscrowContract.Rotate | contracts/escrow/src/lib.rs:982-1021 | Rotation: its checks in order, the payer's second signature, and the one-element releaser list. |
| EscrowContract.EscrowContract.TransferPayeeRights | contracts/escrow/src/lib.rs:1836-1871 | Payee transfer: its checks in order and the new payee. |
| EscrowContract.EscrowContract.SetPause | contracts/escrow/src/lib.rs:1759-1788 | Pause and unpause: custodian only, each only from the other state. |
| EscrowContract.EscrowContract.ReleaseEscrow | contracts/escrow/src/lib.rs:1087-1092 | Release by one caller. |
| EscrowContract.EscrowContract.ReleaseApproved | contracts/escrow/src/lib.rs:1100-1111 | Release by approvals. |
| EscrowContract.EscrowContract.RefundEscrow | contracts/escrow/src/lib.rs:1186-1211 | Refund by releaser, by timeout, or by the payee with its extra event. |
| EscrowContract.EscrowContract.RefundApproved | contracts/escrow/src/lib.rs:1258-1270 | Refund by approvals. |
| EscrowContract.EscrowContract.Cancel | contracts/escrow/src/lib.rs:1231-1251 | Cancel by the payer before acceptance. |
| EscrowContract.EscrowContract.SettleOne | contracts/escrow/src/lib.rs:1639-1668 | A batch operation that answers `Err` has changed nothing; a failure after its writes aborts the batch. |
| EscrowContract.EscrowContract.CreateMany | contracts/escrow/src/lib.rs:631-666 | Batch creation loop: all or nothing, consecutive ids in input order. |
| EscrowContract.EscrowContract.SettleBatch | contracts/escrow/src/lib.rs:1146-1161 | Batch settlement loop: one result per operation in input order. |
| EscrowContract.EscrowContract.Invoke | contracts/escrow/src/lib.rs:1453-1460 | One signed call: it succeeds exactly when it is admissible and then leaves exactly the state described for it; otherwise every write is undone and the error it answers is true of the call. The invariant holds either way. |
| EscrowContract.EscrowContract.InvokeCreateMany | contracts/escrow/src/lib.rs:631-666 | A batch creation as one invocation equals one step of a run. |
| EscrowContract.EscrowContract.InvokeSettleMany | contracts/escrow/src/lib.rs:1146-1161 | A batch settlement as one invocation equals one step of a run. |
| EscrowContract.ValidateReleaserSet | contracts/escrow/src/lib.rs:1391-1410 | The nested loops reject exactly sets that are too large, badly thresholded, or repeat an address, in that order. |
| EscrowContract.ValidateApprovals | contracts/escrow/src/lib.rs:1431-1451 | The approval loop answers as its specification: first offending approver decides. |
| EscrowSuccess.SettleOutcome | contracts/escrow/src/lib.rs:1461-1565 | On a reachable funded escrow a settlement fails only at its gates or because an outside party refuses; no arithmetic or counter failure is possible. |
| EscrowSuccess.SettlementPays | contracts/escrow/src/lib.rs:1485-1542 | Exact effect on every balance of every holder: on release the payee gets the amount less floor(amount * bps / 10000) and the fee recipient that fee, otherwise `refund_to` gets the full amount; no other holder but the contract and no supply changes. |
| EscrowSuccess.ClaimOutcome | contracts/escrow/src/lib.rs:874-925 | A claim never overflows and succeeds if and only if the round failed, the caller has an unclaimed record and signed, and the token delivers. |
| EscrowSuccess.ReleaseSucceeds | contracts/escrow/src/lib.rs:1087-1092 | Release succeeds if and only if the caller signed, is a lone stored releaser, and every gate is open. |
| EscrowSuccess.ReleaseWithApprovalsSucceeds | contracts/escrow/src/lib.rs:1100-1111 | Release by approvals succeeds if and only if the list is long enough, distinct, stored and signed, and every gate is open. |
| EscrowSuccess.RefundSucceeds | contracts/escrow/src/lib.rs:1186-1211 | Refund succeeds if and only if the payee, a lone releaser, or anyone after the deadline asks for a funded non-pooled escrow. |
| EscrowSuccess.RefundWithApprovalsSucceeds | contracts/escrow/src/lib.rs:1258-1270 | Refund by approvals: exact success condition. |
| EscrowSuccess.CancelSucceeds | contracts/escrow/src/lib.rs:1231-1251 | Cancel: exact success condition. |
| EscrowSuccess.TransferInOutcome | contracts/escrow/src/lib.rs:1880-1899 | A verified deposit never overflows the counter. |
| EscrowSuccess.CreateNeverOverflows | contracts/escrow/src/lib.rs:1272-1386 | Creation never ends in `Overflow`. |
| EscrowSuccess.TopUpOverflow | contracts/escrow/src/lib.rs:1052-1059 | A top-up overflows only when the asked sum itself exceeds i128. |
| EscrowSuccess.ContributeNeverOverflows | contracts/escrow/src/lib.rs:824-848 | None of the three checked additions of a contribution can fail. |
| EscrowHistory.RecordOverRuns | contracts/escrow/src/lib.rs:1461-1565 | Over any run payer, token, `refund_to`, threshold, deadlines and fee terms never change; acceptance is never undone; a settled record is frozen. |
| EscrowHistory.StepAuthority | contracts/escrow/src/lib.rs:1391-1451 | Every change a step makes to a record had the signatures and conditions its kind demands: quorum, gates and full funding for a release; payee, quorum or deadline for a refund; payer before acceptance for a cancel; both parties for a rotation; the payee for a payee transfer. |
| EscrowHistory.LedgeredOverRuns | contracts/escrow/src/lib.rs:1569-1598 | In every reachable state the published events account for each escrow and each contributor. |
| EscrowHistory.SinglePayout | contracts/escrow/src/lib.rs:1461-1565 | Each escrow settles at most once over any run, and everything paid in has left exactly once or is still held. |
| EscrowHistory.ClaimOrRelease | contracts/escrow/src/lib.rs:874-925 | No run contains both a claim and a release of one pool. |
| EscrowHistory.RoundOverRuns | contracts/escrow/src/lib.rs:821-830 | A round that failed stays failed and a round that reached its target stays there, over every run. |
| EscrowHistory.PoolDecided | contracts/escrow/src/lib.rs:1723-1738 | A pool below target at its deadline can never be released afterwards, by any call; a pool at target can never be claimed from. |
| EscrowBatch.OneMirrorsSingle | contracts/escrow/src/lib.rs:1639-1668 | A batch operation answers exactly like the single call it mirrors if and only if it is not a refund asked for by the stored payee. |
| EscrowBatch.PayeeShortcutReachable | contracts/escrow/src/lib.rs:1190-1196 | Concrete run in which the two differ: the payee's single refund succeeds, the batched one is `Unauthorized`. |
| EscrowBatch.SettleManyRefinesSingles | contracts/escrow/src/lib.rs:1146-1161 | `settle_many` takes at most 12 operations, never aborts while tokens and payees answer, and equals the fold of the single calls with failed operations leaving the state alone. |
| EscrowBatch.SettledOncePerBatch | contracts/escrow/src/lib.rs:1133-1137 | Once an operation of a batch has settled an id every later one on it is rejected. |
| EscrowBatch.CreateEscrowsRefinesSingles | contracts/escrow/src/lib.rs:631-666 | `create_escrows` takes at most 16 items and equals the fold of single creations, all or nothing, storing each item's terms field by field under consecutive ids. |
| EscrowExit.NoStuckFunds | contracts/escrow/src/lib.rs:1186-1211 | From any state that meets the invariant, paused or not, some continuation brings every liability to zero if and only if each funded escrow has an exit not needing the contract's own signature. |
| EscrowExit.DrainFailedPool | contracts/escrow/src/lib.rs:874-925 | Every contributor of a failed round can claim, one after another, until the pool is empty. |
| EscrowExit.DrainSingle | contracts/escrow/src/lib.rs:1186-1211 | A funded single escrow with an exit can be settled by the payee, by anyone after the deadline, by the payer, or by its keyholders. |
| EscrowExit.DrainFullPool | contracts/escrow/src/lib.rs:1603-1609 | A full pool can be released by its releaser. |
| EscrowExit.StuckForever | contracts/escrow/src/lib.rs:319-322 | An escrow without an exit keeps its money in every continuation. |
| EscrowExit.StuckFundsReachable | contracts/escrow/src/lib.rs:1272-1386 | Concrete run: creation accepts the contract's address as payee and sole releaser, and that money never leaves. |
| EscrowClaims.ClaimOrderIrrelevant | contracts/escrow/src/lib.rs:874-925 | Every permutation of the claimants succeeds, ends in the same storage and balances, and pays each exactly the recorded amount. |
| EscrowClaims.ClaimsSucceed | contracts/escrow/src/lib.rs:874-925 | Any order of distinct unclaimed contributors succeeds and reaches the state the set of claimants determines. |
| EscrowClaims.AllClaimsEmptyThePool | contracts/escrow/src/lib.rs:898-911 | When all have claimed, the pool holds nothing. |
| ReleaserAccount.ValidateConfiguration | contracts/releaser-account/src/lib.rs:68-114 | The constructor's nested loops accept exactly valid configurations. |
| ReleaserAccount.ConstructedInv | contracts/releaser-account/src/lib.rs:68-114 | A deployed account has 1 <= threshold <= signer count = registered keys <= 20 and a valid policy. |
| ReleaserAccount.ReleaserAccount.CheckSignatures | contracts/releaser-account/src/lib.rs:286-318 | The nested signature loops answer as specified: registered, not repeated, genuine, at least the threshold. |
| ReleaserAccount.ReleaserAccount.Manage | contracts/releaser-account/src/lib.rs:154-234 | A management call succeeds exactly with a quorum over (this account, its nonce, this action) and the action's own condition; it performs that action, raises the nonce, or changes nothing. |
| ReleaserAccount.ReleaserAccount.ConsumeOperationSlot | contracts/releaser-account/src/lib.rs:320-333 | Counts one operation in the current aligned window unless the cap is reached. |
| ReleaserAccount.ReleaserAccount.CheckAuth | contracts/releaser-account/src/lib.rs:242-261 | An authorization is granted and counted, or refused with nothing changed. |
| ReleaserAccount.RunKeepsInv | contracts/releaser-account/src/lib.rs:154-234 | Every reachable account keeps 1 <= threshold <= signer count = registered keys <= 20. |
| ReleaserAccount.AcceptedSignatures | contracts/releaser-account/src/lib.rs:286-318 | A signature list is accepted if and only if it holds distinct registered keys that all signed, at least the threshold of them. |
| ReleaserAccount.PolicyNeedsEverySigner | contracts/releaser-account/src/lib.rs:210-226 | A successful policy change was signed by exactly the whole signer set, each over (this account, its nonce, this policy). |
| ReleaserAccount.DigestsUsedOnce | contracts/releaser-account/src/lib.rs:335-344 | Over any run the nonce rises by one per success and no signed digest authorizes two management actions. |
| ReleaserAccount.GrantMeaning | contracts/releaser-account/src/lib.rs:264-284 | An authorization is granted if and only if it covers one `release` or `refund` of the bound escrow with this account as second argument, with a quorum and room in the window; it is counted there; each refusal names a true reason. |
| ReleaserAccount.WindowCap | contracts/releaser-account/src/lib.rs:320-333 | Between two policy changes at most `cap` authorizations succeed in any aligned window, whatever counters an older window size left. |
| ReleaserAccount.IntervalCap | contracts/releaser-account/src/lib.rs:320-333 | In any k * window_ledgers consecutive ledgers at most (k + 1) * cap authorizations succeed. |
| Indexer.Store.Handle | indexer/src/mappings/index.ts:8-51 | One handled event overwrites the record field by field and adds one row, is ignored, or throws leaving the store alone. |
| Indexer.ApplyEncoded | contracts/escrow/src/lib.rs:1569-1598 | Every published snapshot decodes to a record showing all its fields, its status by name and its ledger, and to a history row with its action by name; every other contract event is ignored. |
| Indexer.ReplayShowsLast | indexer/src/mappings/index.ts:24-43 | After a replay each record shows the last snapshot published for its id and the ledger it was published in. |
| Indexer.RowsCountEvents | indexer/src/mappings/index.ts:45-50 | History rows count the creation and settlement events of each id. |
| Indexer.IndexAgreesWithStorage | indexer/src/mappings/index.ts:8-51 | After replaying the events of any contract run the index has the stored ids and statuses, shows every published field of settled escrows, and holds one creation and at most one settlement row per id. |
| Amounts.ParseMeaning | sdk/src/amounts.ts:86-107 | Parsing accepts exactly plain decimals with at most `decimals` fractional digits and returns the number they denote, scaled, with no rounding. |
| Amounts.FormatIsCanonical | sdk/src/amounts.ts:113-126 | Printing yields the canonical text: no superfluous zero, a dot only before a fraction. |
| Amounts.ParseFormat | sdk/src/amounts.ts:86-126 | parse(format(v)) = v for every v >= 0 and every supported scale. |
| Amounts.FormatParse | sdk/src/amounts.ts:86-126 | format(parse(s)) = s for every canonical text. |
| Amounts.NormaliseIdempotent | sdk/src/amounts.ts:132-134 | Normalising is idempotent, canonical and keeps the amount. |
| Amounts.NormaliseDecidesEquality | sdk/src/amounts.ts:132-134 | Two accepted texts normalise alike if and only if they denote the same number. |
| Amounts.PadDecimalValue | sdk/src/amounts.ts:122-124 | Printing the value of a digit string and padding to its length gives the string back. |
| ScVal.BigIntToI128 | sdk-go/scval.go:22-41 | The add-shift-mask-reinterpret steps yield floor quotient and remainder by 2^64; nil and out-of-range values are refused. |
| ScVal.I128ToBigInt | sdk-go/scval.go:44-49 | Every pair of halves decodes to the one number in range that encodes to it. |
| ScVal.PartsRoundTrip | sdk-go/scval.go:22-49 | The two conversions are mutually inverse between [-2^127, 2^127) and all (int64, uint64) pairs. |
| ScVal.PartsAreTwosComplement | sdk-go/scval.go:19-21 | The halves are the two's complement bits of the number. |
| ScVal.StatusRoundTrip | sdk-go/scval.go:285-303 | `Funded`, `Released` and `Refunded` stand for 0, 1 and 2; exactly these read back and any other name is refused by name. |
| ScVal.DecodeMap | sdk-go/scval.go:265-280 | The loop yields the fields of the entries or stops at a non-symbol key. |
| ScVal.LastKeyWins | sdk-go/scval.go:273-278 | For each symbol the last entry with that key is read, and no other symbol is. |
| ScVal.EntryOrderIrrelevant | sdk-go/scval.go:265-280 | Without duplicate keys the order of entries does not matter. |
| ScVal.DecodeEscrow | sdk-go/scval.go:306-437 | Decoding yields the one record the value describes, or the error of the first faulty field in reading order. |
| ScVal.DecodingIsDeterminate | sdk-go/scval.go:306-437 | The decoding specification has exactly one outcome per value. |
| ScVal.EncodeEscrow | sdk-go/scval.go:442-487 | Encoding yields the fourteen entries, or refuses exactly when the amount or an address cannot be encoded. |
| ScVal.LayoutsDecode | sdk-go/scval.go:370-434 | Any layout of a record, with later fields missing or unknown ones added, decodes to the record with defaults; an unknown status is refused. |
| ScVal.EscrowRoundTrip | sdk-go/scval.go:439-487 | decode(encode(e)) = e for every encodable record exactly when its status is one of the three known ones. |
| Multisig.ValidatePolicy | sdk/src/multisig.ts:196-270 | Accepts exactly valid policies; otherwise reports exactly the reasons that apply, structural ones first. |
| Multisig.ReasonsMeaning | sdk/src/multisig.ts:196-229 | A policy is well formed if and only if no reason applies. |
| Multisig.BuildSetup | sdk/src/multisig.ts:330-378 | Builds one operation per non-master signer and the master-weight operation last, as many as the dry run says, exactly for valid policies. |
| Multisig.SetupEffect | sdk/src/multisig.ts:348-373 | Effect of the operations on any account: signers overlaid, thresholds set, own key zeroed when asked. |
| Multisig.VerifyMultisig | sdk/src/multisig.ts:421-471 | Reports exactly the differences, and `matches` if and only if thresholds, own-key weight and other signers' weights are equal. |
| Multisig.DifferencesMeaning | sdk/src/multisig.ts:429-468 | Account and policy agree if and only if there is no difference. |
| Multisig.BuildThenVerify | sdk/src/multisig.ts:330-471 | After the built setup any account verifies if and only if it had no signer outside the policy and whatever the operations do not write was right already. |
| Multisig.FreshSetupVerifies | sdk/src/multisig.ts:330-471 | Setting up a fresh account with own-key removal verifies, and its total weight is the dry run's, at least the high threshold. |
| SettleOutcomes.LoadOutcomes | scripts/settle-outcomes.py:41-62 | Accepts exactly non-empty lists of rows with a 64-bit id and `release` or `refund`, with distinct ids, and returns those ids and actions. |
| SettleOutcomes.LoadState | scripts/settle-outcomes.py:65-84 | Loads exactly files of blank lines and complete records, or aborts. |
| SettleOutcomes.WriteState | scripts/settle-outcomes.py:87-95 | Writes one line per id in ascending order. |
| SettleOutcomes.StateRoundTrip | scripts/settle-outcomes.py:65-95 | load(write(s)) = s if and only if every transaction hash is non-empty; otherwise loading aborts. |
| SettleOutcomes.EmptyHash | scripts/settle-outcomes.py:133-133 | A successful submission yields an empty hash exactly when its last output line holds only quotes. |
| SettleOutcomes.RunDriver | scripts/settle-outcomes.py:136-185 | One run, dying anywhere or not, works the pending rows off up to its end; every record it makes is of a command that exited 0, with its last line stripped of quotes, and it exits 0 only if every outcome was on record or its command succeeded. |
| SettleOutcomes.NeverResubmitted | scripts/settle-outcomes.py:160-178 | Over any sequence of runs with deaths at any point a recorded id is never submitted again. |
| SettleOutcomes.RecordsStayFaithful | scripts/settle-outcomes.py:151-155 | Recorded actions never change and never contradict the outcome file; each is an old one or one the log reports. |
| SettleOutcomes.ResumableUntilEmptyHash | scripts/settle-outcomes.py:65-84 | Later runs can start exactly as long as no empty hash has been recorded. |
| SettleOutcomes.FinishedRun | scripts/settle-outcomes.py:169-185 | A finished run exits 0 if and only if it leaves every outcome on record, and then nothing is left to submit. |
| SdkBatch.ResolveChunkSize | sdk/src/index.ts:2260-2263 | The chunk size is the requested one rounded down, capped at 16, and 16 when none is requested. |
| SdkBatch.BatchResults | sdk/src/index.ts:2241-2253 | Each index starts from the last success reported for it, realigned with the input and marked as carried over, or from nothing. |
| SdkBatch.SendBatch | sdk/src/index.ts:2172-2202 | For any chunk size exactly the not yet successful indices are attempted, once each, in input order; the call returns normally if and only if all are successful. |
| SdkBatch.OpenMeaning | sdk/src/index.ts:2182-2183 | The attempted indices are listed once each in ascending order. |
| SdkBatch.SucceedsAtMostOnce | sdk/src/index.ts:2241-2253 | Across any chain of retries each item succeeds at most once, is never attempted afterwards, and keeps that call's transaction. |
| SdkBatch.ReturnsWhenAllSucceeded | sdk/src/index.ts:2255-2257 | The last call of a chain returns normally if and only if every item has succeeded in some call. |
| SdkBatch.ValidateMilestoneSchedule | sdk/src/index.ts:305-318 | Accepts exactly non-empty positive schedules that sum to a representable amount. |
| SdkBatch.RefsIdentify | sdk/src/index.ts:325-333 | A tranche reference determines its base, position and count. |
| SdkBatch.CreateMilestoneEscrow | sdk/src/index.ts:1617-1647 | Nothing is sent for a bad schedule or an oversized reference; otherwise tranches are created in order up to the first failure, whose error carries exactly the ids created before it. |
| EscrowTraces.KeptOverRuns | contracts/escrow/src/lib.rs:1453-1460 | Induction over runs: a property every lawful move, clock step and outside token activity keeps holds at the end of every run. |
| EscrowSafety.OpenPoolKeepsInv | contracts/escrow/src/lib.rs:747-788 | A pooled creation keeps the invariant. |
| EscrowSafety.ClaimKeepsInv | contracts/escrow/src/lib.rs:874-925 | A completed claim keeps the invariant. |
| EscrowSafety.AcceptKeepsInv | contracts/escrow/src/lib.rs:554-581 | An acceptance keeps the invariant. |
| EscrowSafety.FeeBound | contracts/escrow/src/lib.rs:1485-1502 | The fee is between zero and the amount, and zero on anything but a release. |
| EscrowSafety.OtherSurplus | contracts/escrow/src/lib.rs:1880-1929 | Deposits, claims and edits leave every token's surplus exactly as it was. |
| EscrowContract.EscrowContract.CallInbound | contracts/escrow/src/lib.rs:1886-1890 | An inbound transfer moves the amount, short or over by what the token credits, or nothing. |
| EscrowContract.EscrowContract.AdvanceClock | contracts/escrow/src/lib.rs:883-885 | The ledger clock only moves forward and nothing else changes. |
| EscrowContract.EscrowContract.Restore | contracts/escrow/src/lib.rs:1453-1460 | The host's rollback restores all storage, ledgers and events. |
| EscrowContract.EscrowContract.TakeId | contracts/escrow/src/lib.rs:1874-1878 | Ids are consecutive. |
| EscrowContract.EscrowContract.StoreNew | contracts/escrow/src/lib.rs:1361-1385 | A new record, its status, the next id and the creation event are written together. |
| EscrowContract.EscrowContract.CheckGates | contracts/escrow/src/lib.rs:1467-1502 | Release time, acceptance and fee arithmetic, in the code's order, before any write. |
| EscrowContract.EscrowContract.WriteClosed | contracts/escrow/src/lib.rs:1504-1516 | Record, status and counter are written before any call out. |
| EscrowContract.EscrowContract.RecordContribution | contracts/escrow/src/lib.rs:835-857 | The contributor's record and the pool's amount grow by the contribution. |
| EscrowContract.EscrowContract.WriteClaimed | contracts/escrow/src/lib.rs:899-912 | The claim's mark, the pool's amount and the counter are written before the token call. |
| EscrowContract.Contains | contracts/escrow/src/lib.rs:1740-1747 | The membership loop. |
| EscrowHistory.PooledAccounting | contracts/escrow/src/lib.rs:808-925 | In every reachable state a funded pool holds exactly its unclaimed contributions, at most its target, and refunded records exist only in failed rounds. |
| EscrowHistory.RefundedNeverContributes | contracts/escrow/src/lib.rs:821-823 | Whoever has claimed from a pool can never contribute to it again, in any continuation. |
| EscrowBatch.PayeeShortcutDiffers | contracts/escrow/src/lib.rs:1190-1196 | The same difference from any state holding such an escrow. |
| EscrowExit.QuorumIsKeyholders | contracts/escrow/src/lib.rs:1417-1451 | No quorum can be signed without `threshold` stored releasers that have a key. |
| ReleaserAccount.ManageKeepsInv | contracts/releaser-account/src/lib.rs:154-234 | Each management action keeps signer set, count and threshold consistent and raises the nonce by one. |
| ReleaserAccount.WindowsCap | contracts/releaser-account/src/lib.rs:320-333 | Any number of consecutive windows grants at most `cap` each. |
| Indexer.MirroredOverRuns | contracts/escrow/src/lib.rs:1569-1598 | In every reachable state the last published snapshot of an id has the stored status, and for a settled escrow is the stored record. |
| ScVal.DecodeParties | sdk-go/scval.go:345-371 | The first five fields, or the first fault among them. |
| ScVal.DecodeTerms | sdk-go/scval.go:372-397 | The next five fields, the later ones only when present, or the first fault among them. |
| ScVal.DecodeRest | sdk-go/scval.go:398-434 | Callback flag, releasers and the acceptance fields, or the first fault among them. |
| ScVal.DecodeReleasers | sdk-go/scval.go:402-416 | Every releaser is an address, or the list is refused. |
| Multisig.SignerReasons | sdk/src/multisig.ts:215-227 | The signer loop reports exactly the empty keys, bad weights and repeated keys. |
| Multisig.PolicyReasons | sdk/src/multisig.ts:197-229 | The structural reasons are exactly those that apply. |
| Multisig.LockOutRefusals | sdk/src/multisig.ts:238-262 | The lock-out reasons are exactly those that apply. |
| Multisig.ToMap | sdk/src/multisig.ts:452-453 | A map built from entries keeps the last weight per key. |
| Multisig.HeaderDifferences | sdk/src/multisig.ts:431-450 | Threshold and own-key differences are exactly those that exist. |
| SettleOutcomes.Contradicted | scripts/settle-outcomes.py:151-155 | Detects exactly a recorded action the outcome file contradicts. |
| SettleOutcomes.SubmitPending | scripts/settle-outcomes.py:169-185 | The submission loop up to its end or the process's death. |
| SettleOutcomes.WorkLog | scripts/settle-outcomes.py:169-178 | A run submits only pending rows, none after its record, and records exactly the rows that succeeded. |
| SettleOutcomes.WorkFile | scripts/settle-outcomes.py:87-95 | After a run the file holds what it held before and every row that succeeded, and nothing else. |
| SdkBatch.StartAligned | sdk/src/index.ts:2248-2252 | Resuming from aligned results carries over exactly the successful ones. |
| SdkBatch.ChainStep | sdk/src/index.ts:2172-2202 | One more call of a chain attempts exactly the items not yet successful and records the answer literally; it carries the others over. |
| EscrowCalls.CallSucceeds | contracts/escrow/src/lib.rs:440-1871 | Each of the fourteen entry points succeeds if and only if a condition on storage, signers, balances and outside answers holds, with every limit written out. |
| EscrowCalls.CallDoes | contracts/escrow/src/lib.rs:440-1871 | The whole state each successful call leaves: record, status, counter, every balance, events. |
| EscrowCalls.CallMeaning | contracts/escrow/src/lib.rs:1453-1460 | As a step of a run: the described effect exactly when the call is admissible, and otherwise no change at all. |
| EscrowCalls.AnswersAreTruthful | contracts/escrow/src/lib.rs:273-381 | Every error is true of the call and the ledger it was made on; every trap is a missing or repeated signature or an outside refusal. |
| EscrowCalls.CreateSucceeds | contracts/escrow/src/lib.rs:1290-1359 | Creation: exact success condition over its terms, signatures and transfer. |
| EscrowCalls.PoolSucceeds | contracts/escrow/src/lib.rs:718-745 | Pooled creation: exact success condition. |
| EscrowCalls.TopUpSucceeds | contracts/escrow/src/lib.rs:1026-1059 | Top-up: exact success condition. |
| EscrowCalls.ContributeSucceeds | contracts/escrow/src/lib.rs:809-833 | Contribution: exact success condition; one that reaches the target exactly is accepted. |
| EscrowCalls.EditsSucceed | contracts/escrow/src/lib.rs:982-1012 | Acceptance, rotation and payee transfer: exact success conditions. |
| EscrowCalls.PauseSucceeds | contracts/escrow/src/lib.rs:1759-1788 | Pause and unpause: exact success condition. |
| EscrowCalls.SettlementSucceeds | contracts/escrow/src/lib.rs:1087-1270 | The five settlement calls: exact success condition and the settlement each makes. |
| EscrowCalls.CreationDoes | contracts/escrow/src/lib.rs:1359-1385 | A creation stores each of the caller's terms, `refund_to` defaulting to the payer, and takes the amount from the payer. |
| EscrowCalls.PoolCreationDoes | contracts/escrow/src/lib.rs:747-787 | A pooled creation stores its terms with amount zero and its target and deadline. |
| EscrowCalls.TopUpDoes | contracts/escrow/src/lib.rs:1059-1068 | A top-up adds the amount to the record and the counter and takes it from the payer. |
| EscrowCalls.ContributionDoes | contracts/escrow/src/lib.rs:833-857 | A contribution adds to the pool, to the contributor's own record and to the counter. |
| EscrowCalls.ClaimDoes | contracts/escrow/src/lib.rs:897-923 | A claim pays the contributor exactly the recorded amount and marks the record. |
| EscrowCalls.ReleaseDoes | contracts/escrow/src/lib.rs:1475-1542 | A release pays the payee and the fee recipient, closes the record as `Released` and publishes it. |
| EscrowCalls.ReturnDoes | contracts/escrow/src/lib.rs:1475-1542 | A refund or cancel pays `refund_to` everything and publishes `refunded` or `cancelled`, with the payee's extra event when the payee asked. |
| EscrowCalls.FeeIsFloor | contracts/escrow/src/lib.rs:1485-1502 | On a stored record the fee of a release is floor(amount * bps / 10000), and zero otherwise. |
| EscrowBatch.OperationSettles | contracts/escrow/src/lib.rs:1639-1668 | One batch operation: exact success condition and the settlement it makes. |
| ReleaserAccount.ManageMeaning | contracts/releaser-account/src/lib.rs:154-234 | A management call succeeds if and only if a quorum signed (account, nonce, action) and the action's condition holds; its effect and each error are stated literally. |
| ReleaserAccount.QuorumMeaning | contracts/releaser-account/src/lib.rs:286-318 | Signature checking accepts exactly distinct registered keys, at least the threshold, that each signed this payload. |
| ReleaserAccount.ConstructMeaning | contracts/releaser-account/src/lib.rs:68-114 | Deployment succeeds exactly on a valid configuration, stores it as given, and names a true reason otherwise. |
| SettleOutcomes.SubmitMeaning | scripts/settle-outcomes.py:125-133 | A submission succeeds if and only if the command exits 0 and prints a line; the hash is its last line without the quotes around it. |
| SettleOutcomes.RecordsAreSuccesses | scripts/settle-outcomes.py:169-178 | A run records an outcome only if its own command exited 0, with the stripped last line. |
| SettleOutcomes.FailuresStayPending | scripts/settle-outcomes.py:172-176 | A pending row whose command failed is recorded neither in the log nor in the file, and the run does not report success. |
| SettleOutcomes.CompleteRun | scripts/settle-outcomes.py:169-185 | A run that does not die submits every pending row, records each success, and exits 0 if all succeeded and 1 otherwise. |
| SettleOutcomes.RefusedRun | scripts/settle-outcomes.py:146-167 | A run is refused exactly when the outcome file or the state file is malformed or they contradict each other, and then does nothing. |
| SettleOutcomes.PendingInOrder | scripts/settle-outcomes.py:160-160 | Pending rows keep the order of the outcome file. |
| SettleOutcomes.LastRecordWins | scripts/settle-outcomes.py:73-83 | For each id the last line that records it is loaded, and no other id. |
| Multisig.ValidMeaning | sdk/src/multisig.ts:196-270 | Validity in the policy's own fields: names, weights and thresholds in 1 to 255, order, own key, and enough remaining weight. |
| Multisig.SetupInstalls | sdk/src/multisig.ts:179-189 | Defaults: an absent `removeMasterKey` zeroes the own key with the last operation, an absent threshold is installed as `threshold`. |
| Multisig.AgreementMeaning | sdk/src/multisig.ts:425-451 | What `matches` compares, in the policy's own fields with their defaults. |
| Multisig.SummaryMeaning | sdk/src/multisig.ts:275-314 | The dry run's weights and operation count. |
| Multisig.FirstWeightMeaning | sdk/src/multisig.ts:245-255 | The first entry for a key decides its weight; an unlisted key weighs nothing. |
| Indexer.HandlerReads | indexer/src/mappings/index.ts:15-50 | How each of the thirteen positions of a snapshot is read into the record and the history row. |
| Indexer.HandlerReadsOlder | indexer/src/mappings/index.ts:16-40 | A twelve-field snapshot is read as fee-free. |
| ScVal.AddressKinds | sdk-go/scval.go:135-160 | G texts are accounts and C texts are contracts, in both directions. |
| Amounts.ParseAccepts | sdk/src/amounts.ts:79-102 | Acceptance character by character: digits, at most one dot, a digit last, at most `decimals` digits after the dot, 0 to 38 decimals. |
| Amounts.PatternMeaning | sdk/src/amounts.ts:77-79 | The pattern, character by character. |
| Amounts.DigitMeaning | sdk/src/amounts.ts:104-106 | The ten digit values and the weight of each place. |
| Amounts.ParseExample | sdk/src/amounts.ts:81-83 | The documented example, parsed and printed. |
| Amounts.FormatAccepts | sdk/src/amounts.ts:113-120 | Printing accepts exactly amounts that are not negative at 0 to 38 decimals. |
| SdkBatch.RefText | sdk/src/index.ts:320-326 | The text of a tranche reference, digit by digit. |
| SdkBatch.StartMeaning | sdk/src/index.ts:2241-2253 | What an index carries over from the results resumed from. |

## Left out

- Soroban host details: entry lifetimes and archival, resource budgets, transaction encoding, address checksums. Addresses are opaque values with equality.
- Widths of u64 ids, nonces and timestamps and of u32 counters: natural numbers here. Token amounts are bounded as i128 values everywhere they are checked.
- Cryptography: a set of (key, payload) pairs stands for the signatures that exist, and a digest for the tuple it hashes.
- Re-entry itself, which the host forbids; what is proved is the storage at every call out. Tokens that take balances back from the contract are excluded; a token may refuse or credit a wrong amount.
- EscrowContract.EscrowContract.CreateEscrowInner: stands for the five public creation entry points (contracts/escrow/src/lib.rs:440-621), which only fix some of its arguments.
- EscrowExit.NoStuckFunds: the promise that funds are never stuck is false in general. An escrow whose payee is the contract, with no deadline, no acceptance gate and too few keyholding releasers, is stuck; likewise a full pool whose releaser is the contract. The equivalence gives the exact condition.
- EscrowBatch.SettleManyRefinesSingles: requires that no refund operation is asked for by the stored payee, because the code's batch path lacks the payee's shortcut (contracts/escrow/src/lib.rs:1190-1196); EscrowBatch.OneMirrorsSingle is the exact condition per operation.
- EscrowClaims.ClaimOrderIrrelevant: the published events differ by their order, so states are compared apart from the event list.
- The repository's README gives 20 as the `settle_many` limit; the code's constant is 12 and is the one modelled. A second signature request for the same address in one call traps, as contracts/escrow/src/lib.rs:1350-1351 says; so a rotation whose releaser is also the payer, and a creation that notifies a payee who is the payer, trap.
- ReleaserAccount.WindowCap: expiry of a usage counter is not modelled; the code extends it to the network maximum, which every window is shorter than.
- Indexer.Store.Handle: a value that is text holding digits also converts to a number in the original; here only numbers do, which is all the contract publishes.
- Amounts.ParseMeaning: non-integer scales and non-string inputs have no counterpart here, and all refusals are one error.
- ScVal.EscrowRoundTrip: the Go record has no fee fields, so a contract record loses them; a `Cancelled` record cannot be decoded at all, as the status table has no constant for it. Address text is parsed and rendered without checksums.
- Multisig.BuildThenVerify: the network's limit of 20 signers and its per-operation authorization are left out; weights are whole numbers.
- SettleOutcomes.RunDriver: the JSON syntax of lines, the command line with its template check, and the temporary file are left out; a state file is replaced at once or not at all. A row submitted by a run that dies before recording it is submitted again by the next run, as in the code.
- SdkBatch.SendBatch: stands for both `createEscrows` and `settleMany`, whose loops differ only in the call they make; the calls' answers are parameters.
- `computeFeeEstimate`, `getTokenInfo` and its cache, read-only views, factories, RPC, signing, wallets, hooks and the web demo: network plumbing, interface code or single expressions.
