# Tilla: settlement and ledger proofs

A Dafny model of the money-handling core of the Tilla storefront backend, with machine-checked proofs
of what it promises. Each subsystem has a value-level part (tables or states, and a function per
committed step), theorems over every run of those steps, and, where the program works by changing rows
in place, a class whose methods are proved to compute exactly those functions.

Check everything with `dafny verify dfyconfig.toml` (Dafny 4.11).

| files | what they model |
|---|---|
| `CheckoutLedger`, `CheckoutInvariant`, `CheckoutSteps`, `AgentSteps`, `CheckoutRuns`, `CheckoutTheorems`, `CheckoutSharing`, `CheckoutOutcomes`, `AgentOutcomes`, `DeliveredGoods`, `CheckoutLimits`, `Sweep`, `CheckoutService` | web checkout by unique amount, the block sweeper, the tx-hash fast path, re-checks, expiry, delivery, and agent orders, all over one set of tables |
| `Attester`, `AttesterSafety`, `AttesterTheorems`, `AttesterService` | the on-chain receipt attester as a protocol against a chain that mines when it likes, with crashes between any two steps |
| `MeteredChannel` | pay-as-you-go channels with reads and conditional UPDATEs interleaved |
| `LicenseSlots` | device slots with the four steps of an activation interleaved |
| `AffiliateLedger`, `AffiliateOutcomes`, `AffiliateService` | rev-share accruals and verified payouts |
| `EscrowJobs`, `EscrowService`, `EscrowOutcomes` | commissioned jobs with verified deposits and releases |
| `Fulfilment` | the discovery aggregate against the per-product definition |
| `SlugAllocator`, `CatalogSync`, `Palette`, `PaletteContrast`, `Imagery`, `ImageryService` | the store-building algorithms |

How to read it:

- A table with an automatic id is a sequence whose positions are the ids; a table with a UNIQUE key is a
  map or has that uniqueness in its invariant. One commit, or one conditional UPDATE where interleaving
  matters, is one step.
- Chain nodes, the payment facilitator, image and language-model services and the disk are oracles: their
  answers are parameters, arbitrary except where a hypothesis is written into a precondition.
- The joint invariant of the checkout tables is `CheckoutInvariant.Inv`; `CheckoutRuns.Step` lists every
  commit that can change them, and a run is any sequence of those.
- The `Outcomes` modules say what each commit answers and writes in terms of the rows, the receipt and
  the clock only, without the functions that compute it; the theorems over runs build on those functions.
- The attester's hypotheses are in `Attester.Enabled` (reads never invent a receipt, the re-check is
  truthful, each nonce mines once) and `AttesterSafety.KeepsTrack` (a re-signed transaction that differs
  from the recorded one, and whose nonce has not gone to another one, is not lost after the network
  accepted it). The second is exact: `AttesterTheorems.UntrackedCanDouble`.
- The palette is computed over the reals; x^2.4, the cube root and the square root are any functions that
  satisfy their defining equations (`Palette.Exact`).

## What turned out to differ from the documentation

- The `underpaid` state, and the branch of `_drive_state` that enters it, are unreachable: only exact
  amounts are ever credited (`CheckoutTheorems.UnderpaidUnreachable`).
- A second exact payment submitted by hash to a `late_paid` order records the transfer and credits
  nothing (`CheckoutLimits.LatePaymentLeaks`). Conservation is therefore exact with one amount per such
  submission (`CheckoutTheorems.Conservation`).
- One transaction can pay a web order and settle an agent order. That comes about exactly when a
  settlement is written on a provisional agent order whose transaction is already recorded for a web
  order; every other commit keeps the two apart (`CheckoutSharing.SharingArisesIff`,
  `CheckoutSharing.EverSharedIff`, and `CheckoutLimits.CreditedTxMaySettleLater` for a run).
- The availability check for an amount does not by itself guarantee the insert; the exact exception is an
  expired order whose quarantine has ended but which was not released yet (`CheckoutTheorems.InsertRefusedIff`; `CheckoutLimits.CheckAloneMayBeRefused` is a run that gets there).
- The attester's conditional UPDATEs are described as race-proof. They do not make it safe for two workers
  (`AttesterTheorems.TwoWorkersCanDouble`). For one worker, a re-signed transaction that differs from the
  recorded one and is lost between its acceptance and the write, by a crash or a failed call, can lead
  to a second attestation unless its nonce is already taken (`AttesterTheorems.LosingTrackCanDouble`).
- Closing a metered channel is documented never to lower the recorded spend. It does exactly when a
  voucher was served between the close's read and its write and the final amount is below the spend
  (`MeteredChannel.SpentFallsIff`).
- `activate_license` can answer "already active" for a device that is not: exactly when it undoes its bump
  and the device was deactivated after the last time anyone activated it (`LicenseSlots.FalseAnswerIff`).
- A payout covers nothing exactly when it is smaller than every outstanding accrual, and is recorded all
  the same (`AffiliateLedger.TooSmallPayoutIsForgotten`).
- `unique_slug` can return a reserved route: the exact condition is `SlugAllocator.ReservedIff`.
- `_fit_contrast` meets its floor on a ground for every colour asked of it exactly when the extreme it
  walks towards does (`PaletteContrast.FitAlwaysClearsIff`). On a middling grey it returns white below
  the floor although black would clear it (`PaletteContrast.GreyDefeatsFit`); no mood has such a ground
  (`PaletteContrast.GroundIsFar`).

## Model

| member | source | states |
|---|---|---|
| CheckoutTheorems.ReachableOk | app/checkout.py:106-930 | Every state reachable by creating, sweeping, submitting, polling, expiring, maturing, refunding and agent commits, in any order, satisfies the joint invariant |
| CheckoutTheorems.OneTransferOneOrder | app/models.py:552-560 | One on-chain transfer log is credited to at most one order, over every run |
| CheckoutTheorems.WebDeliveredOnce | app/checkout.py:152-243 | A delivered web order was paid at least its amount out of recorded transfers, has its Delivery row, and fired each sale effect exactly once; an undelivered one fired none |
| CheckoutTheorems.UnderpaidUnreachable | app/checkout.py:406-465 | No reachable order is underpaid, and none is ever left between confirmed and delivered |
| CheckoutTheorems.Conservation | app/checkout.py:389-580 | Received equals credited plus one amount due per payment submitted to a late-paid order; equal exactly when there is none |
| CheckoutTheorems.DeliveryJustified | app/checkout.py:406-869 | No commit delivers a web order without an exact payment at confirmation depth, not recorded before, in that commit's own evidence, or a full earlier credit whose receipt was just re-validated |
| CheckoutTheorems.PromotionRechecks | app/checkout.py:584-869 | A shallow credit is promoted exactly when its receipt still stands at the recorded block, and otherwise reorged |
| CheckoutTheorems.DeadForever | app/checkout.py:611-728 | Cancelled, reorged and refunded orders are never revived or delivered, by any later run |
| CheckoutTheorems.OnlyCreationReserves | app/models.py:245-253 | No commit but creation moves an order into the statuses that reserve an amount |
| CheckoutTheorems.ReachableMatchIsUnique | app/checkout.py:354-386 | In every reachable state a transfer can credit at most one order, and that is the one the matcher picks |
| CheckoutTheorems.InsertRefusedIff | app/checkout.py:247-350 | After a negative availability check the index refuses the insert exactly when an expired order past its quarantine still holds the amount |
| CheckoutTheorems.ReleasedAmountsAreFree | app/checkout.py:708-728 | Right after a release at the same instant, a negative availability check is enough |
| CheckoutTheorems.AgentOutcome | app/agentic.py:891-942 | Every reachable agent order is settling with nothing fired, delivered with a hash, full payment and each effect once, voided with revoked goods and no accrual, or refunded after settlement |
| CheckoutTheorems.LeavesSettlingOnce | app/agentic.py:1338-1452 | Settle success, settle failure and the reaper exclude each other: an agent order leaves settling at most once and its hash is final |
| CheckoutTheorems.OneOrderPerNonce | app/models.py:264 | At most one order per authorization nonce in every reachable state |
| CheckoutTheorems.ReplayIsInert | app/agentic.py:609-716 | Replaying a nonce changes nothing; only the same store and payer are given the stored order, anyone else is refused |
| CheckoutTheorems.ReaperVoidsExactly | app/agentic.py:1180-1224 | The reaper voids exactly the settling orders without a settlement reference that are old enough and were scanned, and none without a completed scan |
| CheckoutTheorems.SettledTxNeverCredited | app/checkout.py:477-580 | A submitted transaction that settled an agent order is never credited to a web order |
| CheckoutTheorems.SweptTxNotSettled | app/checkout.py:749-810 | Nor is a swept one, and what the sweeper credits it records as one new row for the matched order |
| CheckoutSharing.SharingArisesIff | app/agentic.py:1378-1452 | A commit puts a transaction on both a web order and an agent order exactly when it stamps it on a provisional agent order while it is recorded for a web order |
| CheckoutSharing.EverSharedIff | app/agentic.py:1378-1452 | Over whole runs: a transaction is ever on both sides if and only if some commit of the run made such a settlement |
| CheckoutSharing.NamedStaysUnpaid | app/checkout.py:749-771 | While an agent order names a transaction, no commit records it for a web order |
| CheckoutLimits.CreditedTxMaySettleLater | app/agentic.py:1378-1452 | A concrete run in which one transaction pays a web order and then settles an agent order |
| CheckoutLimits.LatePaymentLeaks | app/checkout.py:477-580 | A concrete run in which a late-paid order received twice what it was credited |
| CheckoutLimits.CheckAloneMayBeRefused | app/checkout.py:324-350 | A concrete run after which the availability check passes, the insert is refused, and creating changes nothing |
| CheckoutSteps.MatchFacts | app/checkout.py:354-386 | The matcher finds a creditable order if there is any, and only a creditable one |
| CheckoutSteps.ProcessLogOk | app/checkout.py:774-810 | A swept log either changes nothing or credits exactly the matched order by exactly its amount and records it, keeping the invariant |
| CheckoutSteps.VerifyTxOk | app/checkout.py:477-580 | A submission either changes nothing or credits the whole amount due from new transfers of that receipt, keeping the invariant |
| CheckoutOutcomes.SubmitAppliedIff | app/checkout.py:477-580 | A submission is applied if and only if the order still takes payments, the chain answers, the receipt succeeded, none of its payments is too old or spent elsewhere, and the new ones are distinct and add up to the amount due |
| CheckoutOutcomes.SubmitRefusals | app/checkout.py:477-519 | What each refusal before the logs says, and that none writes anything |
| CheckoutOutcomes.SubmitLogRefusals | app/checkout.py:519-580 | What each refusal over the logs says, the first spoiled payment deciding |
| CheckoutOutcomes.SubmitOutcome | app/checkout.py:406-580 | An applied submission records exactly the new payments and credits the row with their total, delivering it when deep |
| CheckoutOutcomes.SweptLogOutcome | app/checkout.py:354-465 | A swept log credits the one order that waits for exactly it, delivering it when deep, unless it was recorded before or settled an agent order; any other changes nothing |
| CheckoutOutcomes.PollOutcome | app/checkout.py:619-665 | A poll expires its order exactly when its window is over, and delivers or reorgs it exactly when its credit is deep, by its receipt |
| CheckoutOutcomes.MatureOutcome | app/checkout.py:813-869 | The promotion pass does the same to every row of its chain and leaves the others |
| CheckoutOutcomes.ExpiryOutcome | app/checkout.py:690-728 | Maintenance expires and releases every row exactly by its own two deadlines and changes nothing else |
| CheckoutOutcomes.CreateOutcome | app/checkout.py:281-350 | Creation appends one pending row with the first usable draw, its price, deadline and chain position |
| CheckoutOutcomes.CreateRefused | app/checkout.py:281-350 | And changes nothing when no draw is usable |
| DeliveredGoods.DeliveryHandsOver | app/checkout.py:119-243 | Whichever commit delivers a web order, it hands over the newest active deliverable of the product itself, else of the store, with its kind and an unrevoked entitlement in the payer's name, and else the standard text with none |
| DeliveredGoods.PurchaseHandsOver | app/agentic.py:609-716 | An agent order is handed the same at its purchase |
| CheckoutSteps.PromoteMaturedOk | app/checkout.py:813-869 | The promotion loop treats every row on its own and leaves transfers alone, keeping the invariant |
| CheckoutSteps.RefreshOk | app/checkout.py:619-665 | Polling touches one order: it expires it, or re-checks it once matured, or leaves it |
| CheckoutSteps.ExpireAndReleaseOk | app/checkout.py:690-728 | Expiry and release act on each row by its own deadline and keep the invariant |
| CheckoutSteps.FirstDraw | app/checkout.py:281-350 | Creation takes the first drawn amount that is free and fails, changing nothing, only if none was |
| AgentSteps.FulfillOk | app/agentic.py:609-716 | A purchase inserts one provisional order for an unused nonce, or changes nothing and says whose order it is |
| AgentSteps.FinalizeOk | app/agentic.py:1338-1375 | Finalizing moves a settling order to delivered with full payment and its hash, and otherwise does nothing |
| AgentSteps.VoidSettlingOk | app/agentic.py:891-912 | Voiding moves a settling order to cancelled and otherwise does nothing |
| AgentSteps.RecordSettlementOk | app/agentic.py:1378-1452 | Recording a settlement delivers only with a hash and never while a deferred settlement is pending |
| AgentSteps.ReconcileFinalizeOk | app/reconcile.py:118-154 | A reconciled settlement finalizes at most the order it names, under that hash |
| AgentSteps.SettleFailedOk | app/agentic.py:915-942 | A failed settlement cancels at most the settling order of its nonce |
| AgentOutcomes.FailureVoids | app/agentic.py:891-942 | A failed settlement cancels the settling order of its nonce, revokes its goods and announces it once, and changes nothing else; nor anything at all once it is not settling |
| AgentOutcomes.FailureWithoutPurchase | app/agentic.py:915-942 | Nor for a nonce nobody bought with |
| AgentOutcomes.VoidedView | app/agentic.py:891-912 | Seen from each order: the voided one is canceled, out of goods and announced once more, and no other is touched |
| AgentOutcomes.SettleOutcome | app/agentic.py:1338-1452 | A settlement with a transaction delivers a settling order, paid in full, and fires its sale; while one is pending it only notes the reference; otherwise it changes nothing |
| AgentOutcomes.ReconcileOutcome | app/reconcile.py:118-154 | The chain reconciler does the same and notes the transaction as the reference |
| AgentOutcomes.ReconcileFailedOutcome | app/reconcile.py:118-154 | A settlement it found failed voids its order if that is still settling |
| AgentOutcomes.ReapOutcome | app/agentic.py:1180-1224 | Every overdue purchase is canceled, revoked and announced once, and every other order is as it was |
| AgentOutcomes.BuyOutcome | app/agentic.py:609-716 | An unused nonce appends one settling row that has fired nothing; a used one changes nothing and is answered by whose order it is |
| AgentOutcomes.RefundOutcome | app/refunds.py:75-217 | A refund of exactly what is due closes a refundable order, revokes its goods and is announced; any other changes nothing |
| AgentSteps.RefundFullOk | app/refunds.py:75-217 | A full refund of exactly what was paid ends in refunded; anything else changes nothing |
| Sweep.FoldIgnoresHead | app/checkout.py:872-911 | Logs below the safe head have the same effect whatever the head was |
| Sweep.FilterLosesNothing | app/checkout.py:731-746 | Asking only for the active addresses loses no log that could matter, even as the set shrinks |
| Sweep.RangesJoin | app/checkout.py:872-911 | Adjacent block ranges read one after the other are one range, without gap or overlap |
| Sweep.WindowsTile | app/checkout.py:872-911 | Any number of windows of at most 101 blocks processes one contiguous stretch after the cursor, as one fold |
| Sweep.TickTiles | app/checkout.py:872-911 | A tick cut off after k windows ends at exactly the block it should (nowhere without a new safe block, the safe head when nobody waits, else k windows of 101 blocks or the safe head) and processed exactly the blocks in between |
| Sweep.TickWithoutCursor | app/checkout.py:880-886 | A chain without a cursor starts at its safe head and nothing else happens |
| Sweep.TicksCatchUp | app/checkout.py:872-930 | After n ticks that each finish a window the cursor has come n windows or to the safe head, and every log on the way is recorded, an agent's settlement, or nobody's |
| Sweep.RangeIsSlice | app/checkout.py:888-900 | The logs of a block range are one piece of the chain, none missing or repeated |
| Sweep.TicksAreOneFold | app/checkout.py:669-687 | Any sequence of ticks with any heads and crash points ends at exactly the block the ticks add up to and equals one fold over the logs up to there |
| Sweep.SplitsAgree | app/checkout.py:872-930 | Two sequences of ticks that end at the same block end in the same tables |
| Sweep.ReplayIsNoOp | app/checkout.py:774-810 | Processing a window of logs a second time, even with a later head, changes nothing |
| CheckoutService.Checkout.Transition | app/checkout.py:106-116 | The conditional UPDATE moves the row if and only if its status allows it, and reports that |
| CheckoutService.Checkout.DeliverOrder | app/checkout.py:152-243 | Delivery writes status, the owed goods, the Delivery row and the effects once, and nothing for an order not ready |
| CheckoutService.Checkout.IsAmountTaken | app/checkout.py:247-265 | The row scan finds a holder of the amount exactly when there is one |
| CheckoutService.Checkout.CreatePending | app/checkout.py:281-350 | The drawing loop inserts the first usable amount and otherwise leaves the tables alone |
| CheckoutService.Checkout.FindMatch | app/checkout.py:354-386 | The scan returns the oldest in-flight order, or else a quarantined expired one |
| CheckoutService.Checkout.Drive | app/checkout.py:406-465 | Crediting follows the late, underpaid, shallow and deep branches |
| CheckoutService.Checkout.Process | app/checkout.py:774-810 | One swept log: replay guard, settlement guard, match, record, credit |
| CheckoutService.Checkout.ScanReceipt | app/checkout.py:519-550 | The receipt loop collects exactly the new relevant transfers and their sum, or the first objection |
| CheckoutService.Checkout.VerifyTxHash | app/checkout.py:477-580 | The fast path returns the verdict and the tables that SubmitAppliedIff, SubmitRefusals and SubmitOutcome describe |
| CheckoutService.Checkout.MatureOne | app/checkout.py:813-869 | One matured row is promoted or reorged by its re-check |
| CheckoutService.Checkout.RefreshOrder | app/checkout.py:619-665 | A poll updates the tables as specified |
| CheckoutService.Checkout.FlipAndRelease | app/checkout.py:690-728 | The two maintenance loops flip and release exactly the due rows |
| CheckoutService.Checkout.PromoteRows | app/checkout.py:813-869 | The promotion loop over one status equals the row-by-row pass |
| CheckoutService.Checkout.Addresses | app/checkout.py:731-746 | The loop collects exactly the addresses a transfer could still be matched to |
| CheckoutService.Checkout.SweepWindow | app/checkout.py:888-905 | One window is fetched, processed and committed together with its cursor |
| CheckoutService.Checkout.SweepFrom | app/checkout.py:888-905 | The window loop equals the specified sequence of windows |
| CheckoutService.Checkout.SweepChain | app/checkout.py:872-911 | A tick, crashed or not, leaves one unfiltered fold from the old cursor to exactly the block its windows reach, followed by promotion when it was not cut off |
| CheckoutService.Checkout.FulfillAgentOrder | app/agentic.py:609-716 | Nonce lookup, ownership check and insert as specified |
| CheckoutService.Checkout.FinalizeSettled | app/agentic.py:1338-1375 | The finisher reports a win exactly when the order was still settling |
| CheckoutService.Checkout.VoidProvisional | app/agentic.py:891-912 | The voider reports a win exactly when the order was still settling |
| CheckoutService.Checkout.RecordSettlementOf | app/agentic.py:1378-1452 | Recording a settlement updates the tables as specified |
| CheckoutService.Checkout.SettleFailedCore | app/agentic.py:915-942 | A failure leaves the tables that FailureVoids describes |
| CheckoutService.Checkout.ReapAgentOrders | app/agentic.py:1180-1224 | The reaping loop voids the specified rows |
| AttesterTheorems.AtMostOneAttestation | app/attest.py:538-791 | Over every run of one worker with crashes anywhere, missed receipts, lagging nonces and arbitrary mining, at most one attestation per order is mined |
| AttesterTheorems.AttestedIsMined | app/attest.py:620-641 | An attested order's recorded transaction attests that order, is mined, and succeeded |
| AttesterTheorems.NonceRecordedBeforeBroadcast | app/attest.py:584-607 | Nothing new reaches the network unless its row is in the send window with that nonce on record |
| AttesterTheorems.FinalRows | app/attest.py:763-791 | Over any run of any number of workers attested and failed rows never move, and a sent row keeps its transaction and is never sent again |
| AttesterTheorems.SteadyIsTracked | app/attest.py:720-753 | With unchanged gas every run satisfies the hypothesis about re-signed transactions |
| AttesterTheorems.LosingTrackCanDouble | app/attest.py:720-753 | Every step that loses track, a crash or a failed call whose transaction was accepted, in any safe state, can be followed by a second attestation |
| AttesterTheorems.UntrackedCanDouble | app/attest.py:720-753 | A run that loses track anywhere has a beginning that can go on to attest one order twice |
| AttesterTheorems.TwoWorkersCanDouble | app/attest.py:480-490 | A run of two workers, with constant gas and no crash, that attests one order twice |
| AttesterSafety.StepSafe | app/attest.py:538-791 | Every protocol step keeps the one-live-transaction invariant |
| AttesterService.Worker.AttestOne | app/attest.py:538-617 | A pending order's turn is a protocol run; what it leaves behind follows from the network's answers |
| AttesterService.Worker.Send | app/attest.py:601-617 | Broadcasting the recorded intent sends exactly that transaction |
| AttesterService.Worker.ReconcileSendingOne | app/attest.py:644-753 | A row in the send window is resolved, reset only with its transaction off the chain and its nonce used, or rebroadcast |
| AttesterService.Worker.ResetOrResolve | app/attest.py:690-718 | After a used nonce the second look decides: resolve if found, otherwise clear the intent |
| AttesterService.Worker.Rebroadcast | app/attest.py:720-753 | The rebroadcast keeps the nonce and watches the new hash |
| AttesterService.Worker.ReconcileSentOne | app/attest.py:763-791 | A sent row is resolved, given up after three misses, or left |
| AttesterService.Worker.ResolveReceipt | app/attest.py:620-641 | A receipt ends the row in attested or failed and nothing else |
| AttesterService.Worker.Tick | app/attest.py:794-841 | A whole pass is a protocol run and keeps the invariant; every row has its turns and no other change, only rows in the send window or picked are broadcast, and the turns that got somewhere are counted |
| AttesterService.PassOutcome | app/attest.py:538-841 | After a pass every row the chain answers for is settled, an unfound sent row counts up and fails at the third miss, a row without its transaction fails, a picked order has its intent recorded and is sent when confirmed, and the others are as they were |
| AttesterService.Worker.SendingPass | app/attest.py:756-761 | The send window: every row of it has its turn, the others none |
| AttesterService.Worker.SentPass | app/attest.py:763-791 | The sent rows: settled, counted up, or given up |
| AttesterService.Worker.PendingPass | app/attest.py:826-841 | The picked orders: each has its turn, and progress is counted |
| MeteredChannel.OpenNeverOverspends | app/mpp.py:272-359 | In every reachable state an open channel keeps 0 <= spent <= deposit, served at most spent vouchers, and lost no top-up |
| MeteredChannel.ValueKeyIsAVersion | app/mpp.py:272-359 | A voucher or top-up lands exactly when the channel is open and none of its kind landed since its read |
| MeteredChannel.OneVoucherPerTotal | app/mpp.py:272-319 | Of two vouchers that read the same total at most one is ever served |
| MeteredChannel.SpentFallsIff | app/mpp.py:362-399 | Deposits never fall, closed is absorbing, and the spend falls exactly at a winning close of an open channel whose final amount is below the spend, when a voucher was served after that close read the row |
| MeteredChannel.PromptCloseKeepsSpend | app/mpp.py:362-399 | A close with no voucher between its read and its write never lowers the spend |
| MeteredChannel.CloseCanUndercollect | app/mpp.py:362-399 | A concrete run in which it is lowered |
| MeteredChannel.Channels.OpenOnce | app/mpp.py:195-239 | Opening inserts a new channel or returns the existing row unchanged |
| MeteredChannel.Channels.ApplyVoucher | app/mpp.py:272-319 | Rejections in the code's order leave the row; otherwise the spend becomes the cumulative amount |
| MeteredChannel.Channels.TopUp | app/mpp.py:322-359 | A positive top-up of an open channel adds exactly that amount |
| MeteredChannel.Channels.Close | app/mpp.py:362-399 | An uninterrupted close happens once and raises the spend to the final amount at most |
| LicenseSlots.SlotsBalance | app/delivery.py:362-444 | Under every interleaving the counter is active devices plus bumps in flight, never above the cap, and exact when nothing is in flight |
| LicenseSlots.GuardsNeverBite | app/delivery.py:362-444 | No decrement is ever swallowed by its guard |
| LicenseSlots.AnswersOfBumpAndPlace | app/delivery.py:362-423 | "activated" only as the device becomes active; "at limit" only with the slots taken or the licence revoked, and nothing changed |
| LicenseSlots.FalseAnswerIff | app/delivery.py:362-444 | Over every run, "already active" is answered with the device inactive exactly at an undo after a deactivation of the device that no later activation followed |
| LicenseSlots.InactiveIffDropped | app/delivery.py:426-444 | A device with an inactive row is one whose last change was a deactivation |
| LicenseSlots.PlacingFailsInactiveIff | app/delivery.py:411-423 | At the placing step, it fails with the device inactive exactly when the call saw no row and the row that appeared was deactivated |
| LicenseSlots.AlreadyActiveCanBeFalse | app/delivery.py:362-444 | Two concrete interleavings ending in "already active" with no active device: deactivated before the placing fails, and after it |
| LicenseSlots.RevokedIsFinal | app/delivery.py:328-358 | Over every run from a revocation on, the licence stays revoked and gives out no download and no further slot |
| LicenseSlots.License.Activate | app/delivery.py:362-423 | An uninterrupted activation takes one slot, or none and says why |
| LicenseSlots.License.DeactivateDevice | app/delivery.py:426-444 | Deactivation frees exactly the slot of that device |
| LicenseSlots.License.ClaimDownload | app/delivery.py:328-341 | A download is granted exactly below the cap on a live entitlement and counts once |
| LicenseSlots.License.RevokeOnce | app/delivery.py:344-358 | Revoking is idempotent and reports only the first time |
| AffiliateLedger.PaidIsBacked | app/affiliates.py:171-279 | Over every run the paid accruals of a merchant and referrer never exceed the transfers recorded for them; each transfer and each order counts once |
| AffiliateLedger.PayoutIsExact | app/affiliates.py:171-279 | covered <= recorded <= owed before; the recomputed balance drops by exactly covered; no outstanding accrual fits in the leftover; nobody else is affected |
| AffiliateOutcomes.PayoutTakenIff | app/affiliates.py:171-240 | A payout is recorded if and only if the receipt succeeded, moved more than nothing and at most what is owed to the referrer, and none of those transfers was recorded before or appears twice |
| AffiliateOutcomes.PayoutOutcome | app/affiliates.py:226-261 | It appends one row for each of its transfers, in order, and pays with their sum |
| AffiliateOutcomes.CoversOldestFirst | app/affiliates.py:245-261 | Each outstanding accrual, oldest first, is paid if and only if it fits in what the older ones left over |
| AffiliateLedger.SettledRowsStay | app/affiliates.py:131-153 | Paid and void are absorbing, a row's parties and amounts never change, and only its own order's refund voids it |
| AffiliateLedger.AccruesIff | app/affiliates.py:72-128 | A sale accrues exactly its floored two percent, once, unless it refers itself or rounds to nothing |
| AffiliateLedger.TooSmallPayoutIsForgotten | app/affiliates.py:226-261 | A recorded transfer leaves the balance as it was exactly when every outstanding accrual exceeds it, and can never be used again |
| AffiliateService.Affiliates.AccrueSale | app/affiliates.py:72-128 | The accrual guard chain and its unique insert |
| AffiliateService.Affiliates.VoidSale | app/affiliates.py:131-153 | Voids the outstanding accrual of the order and reports whether there was one |
| AffiliateService.Affiliates.OwedTo | app/affiliates.py:157-168 | The outstanding total of one referrer |
| AffiliateService.Affiliates.Collect | app/affiliates.py:194-222 | The log loop keeps exactly the transfers to the referrer and their sum, and refuses at a recorded one |
| AffiliateService.Affiliates.CoverAccruals | app/affiliates.py:245-260 | The covering loop pays oldest first everything that still fits |
| AffiliateService.Affiliates.VerifyAndRecord | app/affiliates.py:171-279 | Every refusal in the code's order leaves the tables; otherwise payouts and accruals change as specified and the reported balances are the recomputed ones |
| AffiliateService.Affiliates.MerchantSummary | app/affiliates.py:287-353 | One exact line per referrer, the rows of its orders newest first with their payout transactions, and an owed total equal to the merchant aggregate |
| AffiliateService.PaidRowsShowTheirPayout | app/affiliates.py:316-336 | After any run a summary row shows a payout transaction exactly when it is paid, and it is one recorded for that merchant and referrer |
| AffiliateService.Affiliates.MerchantOwed | app/affiliates.py:356-367 | The merchant aggregate |
| EscrowJobs.CompletedIsPaidThrough | app/escrow.py:322-451 | A completed job carries a deposit buyer to escrow and a release escrow to provider, each summing to its budget, the release no earlier, neither shared with another job in that role |
| EscrowJobs.FundedIsNeverCancelled | app/escrow.py:454-469 | A job with a deposit is funded, submitted, completed or disputed, never cancelled |
| EscrowJobs.StepsAreAuthorised | app/escrow.py:298-488 | Rows only move forward, what was verified against is immutable, final states absorb, and every move is a commit by an entitled caller |
| EscrowJobs.OneWinner | app/escrow.py:166-178 | Once any action has moved a row, no action that needs an earlier status, its own twin included, can ever move it, whatever happens in between |
| EscrowJobs.VerifyOk | app/escrow.py:207-244 | A verified transfer moves exactly the amount between the two wallets, none of it before the floor, and returns its last block |
| EscrowOutcomes.VerifiedIff | app/escrow.py:207-244 | A transfer is verified exactly when the receipt moved the exact amount between the two wallets, none of it before the floor; each failure has its reason |
| EscrowOutcomes.ActionOutcome | app/escrow.py:298-488 | An uninterrupted action is taken if and only if it is its caller's to take, on a job in the right status, with an unshared verified transfer where one is needed; it writes its own job and no other |
| EscrowOutcomes.Refusals | app/escrow.py:298-488 | What each refusal says, in the order the checks are made |
| EscrowService.BothHalves | app/escrow.py:298-488 | An uninterrupted action is its check followed by its commit, and keeps the invariant |
| EscrowService.Desk.VerifyTransfer | app/escrow.py:207-244 | The log loop computes the verification, stopping at a log before the floor |
| EscrowService.Desk.BudgetCore | app/escrow.py:298-319 | Setting the budget, with the code's refusals |
| EscrowService.Desk.FundCore | app/escrow.py:322-370 | Funding, with the code's refusals in order |
| EscrowService.Desk.SubmitCore | app/escrow.py:373-395 | Submitting, with screening |
| EscrowService.Desk.ReleaseCore | app/escrow.py:398-451 | Releasing, by the evaluator if there is one |
| EscrowService.Desk.StopCore | app/escrow.py:454-488 | Cancelling before the money, disputing after it |
| Fulfilment.ListingAgrees | app/agentic.py:2725-2734 | The listing's mode from the aggregate equals the store page's per-product mode for every catalogue |
| Fulfilment.JoinRows | app/agentic.py:2901-2935 | A product and a deliverable share a join row exactly when the product is sold and the deliverable is its own or the default |
| Fulfilment.DefaultJoined | app/agentic.py:2904-2915 | The default flag of a store with products is set exactly when it has an active default |
| Fulfilment.SpecificJoined | app/agentic.py:2916-2918 | The distinct count counts exactly the sold products with goods of their own, however many |
| Fulfilment.AutomaticIff | app/agentic.py:212-229 | A product is automatic exactly when its own or the default deliverable is active |
| SlugAllocator.SlugifyIsNeat | app/engine.py:813-816 | Every name has a slug that matches the route pattern, with single hyphens and none at an end unless cut at the limit |
| SlugAllocator.UniqueSlug | app/engine.py:874-910 | Always terminates after at most one numeric try more than slugs taken, returns an untaken slug chosen by rule, matching the pattern whenever fewer than about 10^38 are taken |
| SlugAllocator.NumbersDiffer | app/engine.py:894-896 | Distinct numbers give distinct candidates however much of the slug is cut |
| SlugAllocator.NumberedCount | app/engine.py:904-910 | So n tries inspect n different candidates |
| SlugAllocator.ReservedIff | app/engine.py:874-902 | The result is a reserved route exactly when the name is "create" or "well", taken, and the completing word is the first free suffix |
| SlugAllocator.ReservedIsReachable | app/engine.py:898-902 | It happens to a second store called "create" whose copy says "store" |
| CatalogSync.NothingIsInvented | app/engine.py:676-757 | One entry per active row in id order with its name and price; every blurb or photo comes from an override, the same id, an id-less item of the same name, or the sole item for the sole row |
| CatalogSync.OneItemPerRow | app/engine.py:708-722 | Two id-less items never describe the same product |
| CatalogSync.ExtrasFollowTheProduct | app/engine.py:676-757 | After any later catalogue edit every product shown before keeps its own text and photo wherever it stands |
| CatalogSync.NewProductsStartEmpty | app/engine.py:711-745 | A product not shown before starts with neither |
| CatalogSync.ResyncIsIdempotent | app/engine.py:676-757 | Resyncing an unchanged catalogue changes nothing |
| CatalogSync.StoreContent.Claim | app/engine.py:714-722 | Claiming takes the first unclaimed row of the name |
| CatalogSync.StoreContent.Collect | app/engine.py:711-731 | The item loop leaves, per product, the text and photo of its last item |
| CatalogSync.StoreContent.ResyncCatalog | app/engine.py:664-757 | The rebuilt list and the mirrored scalar fields, removed when nothing is active |
| PaletteContrast.FloorsHold | app/palette.py:186-211 | For every real hue, harmony and mood: text at least 7:1, primary and accent at least 3:1 against the ground |
| PaletteContrast.PickedIsBest | app/palette.py:214-248 | The accent is at least 22 away from primary and text, or no candidate tried is and none is further |
| PaletteContrast.AllValid | app/palette.py:96-116 | All four colours have channels of two hexadecimal digits |
| PaletteContrast.GroundIsFar | app/palette.py:45-86 | Every mood's ground is far from middling luminance at every hue |
| PaletteContrast.BetweenCubeAndSquare | app/render.py:44-53 | x^2.4 lies between the cube and the square on the unit interval |
| PaletteContrast.FallbackClearsIff | app/palette.py:160-183 | Exactly when the black or white fallback meets a floor |
| PaletteContrast.FitAlwaysClearsIff | app/palette.py:160-183 | Fitting meets a floor on a ground for every hue, saturation and lightness if and only if the extreme it walks towards does |
| PaletteContrast.GreyDefeatsFit | app/palette.py:160-183 | A concrete grey on which fitting returns white below 7:1 while black clears it |
| PaletteContrast.Derive | app/palette.py:186-211 | The four colours are the fitted and the picked ones |
| Palette.WalkLightness | app/palette.py:171-183 | The lightness loop returns the first accepted shade in range |
| Palette.FitContrast | app/palette.py:160-183 | The nominal colour, the first step that clears the floor, or the fallback |
| Palette.Search | app/palette.py:232-248 | The nested loops return the first separated candidate or the first of the most separated |
| Palette.SeparatedAccent | app/palette.py:214-248 | The same, for the code's candidates and colour difference |
| Imagery.SortedFacts | app/imagery.py:651-686 | Ranking is a permutation, best first |
| Imagery.RankFacts | app/imagery.py:392-449 | Every ranked candidate is unused, described as showing the subject and, outside the band, its head term |
| ImageryService.Resolve | app/imagery.py:822-909 | At most six searches, stored bytes below both ceilings together, no stock photo twice, generated art only as hero, one place per product, and every product or stock hero photo offered for its query and showing the head term |
| ImageryService.Studio.Slot | app/imagery.py:689-773 | A slot is filled by a relevant unused photo, by art for a hero, or not at all |
| ImageryService.Studio.TryRanked | app/imagery.py:717-736 | Only the first three ranked candidates are tried and the first survivor is kept |
| ImageryService.Studio.Search | app/imagery.py:546-578 | A query is asked once and never beyond the budget |
| ImageryService.Studio.FetchBytes | app/imagery.py:580-648 | A download is a JPEG within the remaining budget |
| ImageryService.Studio.Store | app/imagery.py:596-620 | Storing pays for the bytes and takes the photo id |
| ImageryService.Studio.Generate | app/imagery.py:759-771 | At most three tries; one generated image at most |
| ImageryService.Studio.GeneratedHero | app/imagery.py:776-819 | Art without a provider search |
| ImageryService.Apply | app/imagery.py:310-332 | Old image keys are dropped and each product gets exactly the resolved image of its position |

## Left out

- Routes, rate limits, JSON shapes, MCP dispatch, signatures, hashing and ABI encoding: plumbing or cryptography around the cores; a signature check is a boolean input.
- Settings: confirmations, time limits, offsets, rates, window spans and caps are constants at their defaults.
- Event-log rows, webhook payloads, delivery texts, licence keys and download links: delivery is the status, the Delivery and Entitlement rows and the fact that each effect fired; the attestation flag set at delivery is the attester's queueing step.
- Screening and store visibility at purchase, buyer inputs and the refreshed agent tier: they refuse a purchase before anything is written.
- AgentSteps.RefundFullOk: how a refund receipt is verified, the uniqueness of Refund rows, and refunds above what is due are not modelled; the amount the verified transfers sent is a parameter.
- Partial and overage refunds and the accrual void they share: only the full refund is a commit of the checkout runs; the affiliate ledger has its own void.
- The reconcile scan's own block ranges: its outcome is the set of scanned orders handed to the reaper.
- The clock is a parameter of each commit and may move any way; the sweep theorems fix it over the ticks they compare.
- Reorganisations deeper than the confirmation depth: the chain a sweep reads is fixed, and a shallow credit is re-checked against any receipt.
- Attester schema registration, the idle counter and the order in which pending rows are picked: they send no attestation.
- AttesterService.Worker.AttestOne: the refusal of a missing buyer, payment or delivery is one boolean, because those columns are set before the row is queued.
- A chain node or facilitator that does not answer: the call is refused and nothing changes.
- MPP settlement-agent calls and the states "closing" and "failed": no code path writes those states.
- License activation through a changing cap: the cap is an argument of each bump, and the bound is the highest one used.
- AffiliateService.Affiliates.MerchantSummary: the store slug and the sale transaction of a row are lookups in other tables, and links and dates are formatting.
- EscrowJobs.VerifyOk: there is no confirmation depth in the code, so a receipt is taken as final when it is read.
- Unicode normalisation, case folding and word extraction from copy: names arrive with their comparison key, slug words and image descriptions in lower case.
- Concurrent store creation during slug allocation, and the disk check: the set of taken slugs is fixed for one call.
- Floating-point rounding in the palette: colours are computed exactly, and `#rrggbb` formatting is the three channels.
- The seeding of palette and image draws: draws are arbitrary numbers.
- Exceptions inside an imagery run, which discard the whole set, and image metadata beyond source, size and hits.
- ACP, B2B, growth, evidence, domains, plugins and the dashboard: thin wrappers and guards that would add only easy members.
