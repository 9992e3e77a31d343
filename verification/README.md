# Money movement of a fully reserved stablecoin, in Dafny

USDT in, CLT out. This project models the parts of the repository that decide how much CLT may exist and where the
USDT is, and proves over whole runs what the single-scenario tests of the repository show for one.

Every protocol is a state machine: a `State`, an `Event` for everything that can happen (the treasury's own passes,
people, clocks, crashes, lost replies, the relay, the chain), one `Step`, and `Run` over any sequence of events. The
passes that the repository writes as loops over rows are classes beside it, whose methods change the tables in place
and are shown to be runs of that state machine, so the theorems about runs are theorems about them.

| File | What it is about |
|---|---|
| `GasFreeRail.dfy` | The reserve under GasFree deposits, sweeps, relay fees and redemptions. |
| `GasFreeWorld.dfy`, `GasFreeBooks.dfy` | The same in place, and that what is held back is exact; what is where, as sums over a run. |
| `Payouts.dfy` | The redemption payout protocol, and that no burn is paid twice. |
| `PayoutPermits.dfy`, `PayoutBudget.dfy`, `PayoutSettlement.dfy` | One permit at a time; the rolling cap; what settling records. |
| `PayoutFaults.dfy` | What each fault does to one permit at a time, and that it holds without them. |
| `PayoutPasses.dfy` | The drain and the two confirmation passes, in place. |
| `MintPipeline.dfy` | Outbox, chain and watcher. |
| `RedemptionBurns.dfy` | What a burn decides: no payout without a burn of its own. |
| `MintLedger.dfy`, `MintCap.dfy`, `MintRetries.dfy` | The ledger is a fold of the chain; the rolling mint cap; how often a mint is sent. |
| `MintStatuses.dfy`, `MintResets.dfy` | When a credit is final and a submission is dropped; what is booked after a chain reset. |
| `MintPasses.dfy` | The watcher's poll and the outbox's pass, in place. |
| `Rlp.dfy`, `EvmTx.dfy` | The RLP encoder with a strict decoder, and what an EIP-155 signature covers. |
| `RateLimiting.dfy` | The bounded limiter against the unbounded one. |
| `BscWatch.dfy` | BEP-20 top-ups: every leg once. |
| `BscUnits.dfy`, `BscReserve.dfy`, `BscSweep.dfy` | Flooring, the BSC reserve and a sweep. |
| `ReserveWalk.dfy` | The double-read reserve walk. |
| `Polling.dfy` | The bounded poller: rotation and watermark. |
| `DepositVerdicts.dfy` | What a verified deposit may mint, by where it arrived. |
| `DepositApproval.dfy` | Approval, cap, service fee and ledger together. |
| `Basics.dfy` | Shared vocabulary. |

## Assumptions

The controller runs a permit only at its exact nonce and no later than its deadline, and then moves the nonce on.
Deadlines are at most 600 seconds after signing. A nonce read made after a deadline and the grace sees every run up to
that deadline. Blocks below the confirmation depth stay, except in a reset. The node mints a `credit_ref` once.
Nobody has burned against a redemption's reference before it is made. What the repository reads from outside is
arbitrary within these limits: a parameter of the pass that reads it, as are the writes that fail where the code has a
branch for them, and anything at all may happen around a drain pass.

## What does not hold as one might read it

- Two redemptions can be settled by one transfer. The chain's history is searched ignoring the case of the hash
  (`crates/treasury-service/src/tron_verifier.rs:532-534`), while the references already taken are compared exactly
  (`crates/treasury-service/src/payout.rs:823-829`), and the relay's spelling is stored as it comes.
  `PayoutSettlement.DistinctIffOneSpelling` says exactly when it cannot happen.
- One payout permit at a time does not hold in every run. Four faults each break it: a worker that dies while it waits on
  the signer, a reply that is not recorded, a payout marked paid by another's transfer, and a signer that acts on a call
  more than the grace after it was given up, for which the hold of
  `crates/treasury-service/src/payout.rs:525-541` is too short. `PayoutFaults.OnePermitIffNoFault` shows that it holds
  without them and fails with each of them. No burn is paid twice even so.
- The rolling payout cap needs claims and returns to be written: `PayoutBudget.CapIffNothingLost`;
  `PayoutBudget.RollingPayoutCap` gives the bound with lost writes.
- A person can approve a GasFree deposit that is still `created`
  (`crates/treasury-service/src/intents.rs:147-160`), and then nothing is held back for the relay:
  `GasFreeWorld.UnverifiedApprovalFallsShort`. The reserve covers the supply in every run exactly when that is not done,
  `GasFreeWorld.ReserveCoversSupplyIffVerified`; the approver sees it in the status.
- The limiter reads the clock before it takes the lock (`crates/payment-orchestrator/src/ratelimit.rs:56-57`), so a drop of
  an expired entry can be seen: `RateLimiting.AnEarlierReadingShowsTheBound`, with the exact condition in
  `RateLimiting.UnobservableIffNothingLiveIsGone`.
- The watcher notices a reset only by a chain shorter than its cursor: `MintLedger.AResetAsLongHidesAMint`.
  `MintResets.CompleteIffNoticedOrBooked` says exactly what is booked after any reset. That no intent is booked twice
  holds through every one.
- `credited` is not final in the intents table: recording a submission, giving one up and failing a row write the status
  without looking at it (`crates/treasury-service/src/outbox.rs:96`, `:326`, `:435`), so a mint the watcher credited in
  between becomes `submitted`, `needs_manual` or `failed` again: `MintStatuses.CreditedBecomesSubmitted`.
  `MintStatuses.CreditedIsFinalIffNotSelected` says exactly when it cannot. The ledger is unaffected
  (`MintLedger.LedgerIsTheFold`).
- Giving up a submission is two writes (`crates/treasury-service/src/outbox.rs:89-101`); a stop between them leaves the
  intent `submitted` with its row closed, within the bound on sends but in no person's hands:
  `MintStatuses.GivingUpCanStopHalfWay`. Nothing but the watcher's credit moves it from there,
  `MintStatuses.DroppedUntilCredited`.
- The comment on a confirmed burn names a status `burn_confirmed`; the code goes to `payout_pending` at once
  (`crates/treasury-service/src/watcher.rs:55`, `:119-121`), and so does the model.

## Model

| member | source | states |
|---|---|---|
| GasFreeRail.DepositMintOf | crates/treasury-service/src/gasfree_rail.rs:25-34 | What arrived is the cap plus the fee held, nothing mints when the fee takes it whole, and a mint needs at least the minimum after the fee. |
| GasFreeRail.ReserveCoversSupply | crates/treasury-service/src/gasfree_rail.rs:123-193 | Over every run in which no unverified deposit is approved by hand, with any number of accounts and any interleaving of arrivals, verdicts, sweeps asked for by anyone, treasury sweeps, changing live fees, burns and payouts: accounts, custody and float together are never below the CLT supply. |
| GasFreeBooks.TheBooksAddUp | crates/treasury-service/src/gasfree_rail.rs:161-193 | Over every run: the float is the total of the permits run to it less what payouts cost, custody the total of the other permits, and the supply what was minted less what was burned. |
| GasFreeBooks.RedemptionsAreOwed | crates/treasury-service/src/gasfree_rail.rs:257-272 | A burn owes what was burned less its fee, and a payout takes that and the relay's fee from the float; nothing else touches a redemption. |
| GasFreeRail.StepKeepsGood | crates/treasury-service/src/gasfree_rail.rs:161-193 | Every event but an approval of an unverified deposit keeps both sides of the account: what the relay took and could still take is covered by the maxima of what arrived, what was held leads it by one activation, and the surplus of the accounts and redemptions is the reserve less the supply. |
| GasFreeRail.RunKeepsGood | crates/treasury-service/src/gasfree_rail.rs:123-193 | The same after any such run from any state that has it. |
| GasFreeRail.AccountIsCovered | crates/treasury-service/src/tron_verifier.rs:1087-1108 | One account never takes out in mints and relay fees more than its deposits brought, because the treasury's record of a first sweep implies a deposit that was verified with the full hold. |
| GasFreeRail.GoodIsBacked | crates/treasury-service/src/gasfree_rail.rs:152-159 | The two sides together give a reserve of at least the supply. |
| GasFreeWorld.SizedFromTheChainFallsShort | crates/treasury-service/src/tron_verifier.rs:1078-1086 | Were the hold sized from the chain's record instead of the treasury's own, a deposit swept before it is credited would mint exactly the activation fee more than the reserve holds, for every amount and every fee. |
| GasFreeWorld.SweepingBeforeAnyCreditFallsShort | crates/treasury-service/src/sweeper.rs:136-148 | Were an account swept by the treasury before any credit, verifying the deposit afterwards would leave the supply short by exactly the activation fee: the eligibility query is needed. |
| GasFreeWorld.TheHoldIsExact | crates/gasfree/src/lib.rs:84-90 | The hold is not larger than it has to be: there is a run for every amount that uses all of it, with the reserve equal to the supply. |
| GasFreeWorld.UnverifiedApprovalFallsShort | crates/treasury-service/src/intents.rs:147-160 | A person may approve a deposit that is still created: nothing is held back then, and for every amount and every fee a sweep leaves the supply short by exactly what the relay took, up to the whole hold. |
| GasFreeWorld.ReserveCoversSupplyIffVerified | crates/treasury-service/src/intents.rs:147-160 | The reserve covers the supply in every run if and only if unverified deposits are not approved by hand. |
| GasFreeWorld.World.constructor | crates/treasury-service/src/gasfree_rail.rs:139-150 | An empty rail, covered. |
| GasFreeWorld.World.Verify | crates/treasury-service/src/gasfree_rail.rs:161-171 | What is minted is what arrived less the hold the treasury's own record gives, at most what was proposed, nothing below the minimum or when the hold takes it all; nothing else moves, and the reserve stays above the supply. |
| GasFreeWorld.World.Sweep | crates/treasury-service/src/gasfree_rail.rs:173-193 | Exactly when the permit covers the live fee and there is something to move, the balance less the maximum fee goes to the float or to custody, whichever was asked for, the account pays the live fee besides, and its nonce moves by one; otherwise nothing moves. The rail stays covered. |
| GasFreeWorld.World.SetLiveFees | crates/treasury-service/src/gasfree_rail.rs:131-150 | The live fees change to anything, and nothing else does. |
| GasFreeWorld.SweepIsBacked | crates/treasury-service/src/gasfree_rail.rs:196-240 | Whoever asks for it and whatever the relay takes within the permit, a sweep leaves the rail covered. |
| Payouts.Find | crates/treasury-service/src/tron_verifier.rs:521-539 | The first transfer that confirms the redemption under the named hash, or past the end exactly when none does. |
| Payouts.StepKeepsGood | crates/treasury-service/src/payout.rs:254-570 | Every event, a lost reply, a crash, a refusal, a late signature and a settlement included, keeps what is known of each redemption: at most one of its permits is not dead, and a row that may be paid again has none and no transfer. |
| Payouts.RunKeepsGood | crates/treasury-service/src/payout.rs:254-820 | The same over any run. |
| Payouts.NoBurnIsPaidTwice | crates/treasury-service/src/payout.rs:237-253 | Over every run, at most one transfer was ever sent for a redemption. |
| Payouts.ReturnedIsDead | crates/treasury-service/src/payout.rs:749-790 | The one decision that pays a burn again is right: its permits have not run and never can, no transfer paid it, and no call for it is open. |
| Payouts.WaitingMeansUnpaidForGood | crates/treasury-service/src/payout.rs:774-790 | A redemption waiting to be paid has not been paid, and none of the permits signed for it runs in any continuation. |
| Payouts.DeadForGood | crates/treasury-service/src/payout.rs:213-218 | A permit past its deadline that has not run does not run in any continuation. |
| Payouts.RelayKeeps | crates/treasury-service/src/payout.rs:269-284 | When the relay runs a permit, it was its redemption's only one that was not dead and nothing had paid it. |
| PayoutPermits.OnePermitAtATime | crates/treasury-service/src/payout.rs:269-284 | At every moment of every run in which the worker does not die while it waits, each signed or unclear reply is recorded, a payout is marked paid only by its own transfer, and the signer acts on a call within the grace after it was given up: at most one signed payout permit is neither run nor expired. |
| PayoutPermits.GateKeepsOne | crates/treasury-service/src/payout.rs:269-284 | Past the gate at the top of a pass nothing is alive and no late call is left. |
| PayoutPermits.RunKeepsOne | crates/treasury-service/src/payout.rs:389-446 | The hold each kind of reply leaves on the float keeps the second permit from being signed. |
| PayoutFaults.OnePermitIffNoFault | crates/treasury-service/src/payout.rs:269-284 | For every set of those four faults: in every run that has no others, at most one permit is alive at a time if and only if the set is empty. |
| PayoutFaults.AForgottenPermit | crates/treasury-service/src/payout.rs:389-446 | A worker that dies while it waits, or a reply that is not written, leaves a living permit the gate does not see, and the next pass signs a second one at the chain's own nonce. |
| PayoutFaults.ALateSignature | crates/treasury-service/src/payout.rs:525-541 | The hold after an unclear reply lasts 900 seconds from then: a signer that acts on the call 400 seconds after it was given up signs a permit that outlives the hold, with every reply recorded. |
| PayoutFaults.AnothersTransfer | crates/treasury-service/src/payout.rs:689-708 | A payout marked paid by an earlier transfer like it, named by the relay, lets the next permit be signed while its own is alive. |
| PayoutBudget.RollingPayoutCap | crates/treasury-service/src/payout.rs:297-365 | At every moment of every run, the redemptions claimed in the last 24 hours and in flight or paid come to at most the cap, plus once the cap for each lost claim or return; to the cap when none is lost. |
| PayoutBudget.StepKeepsWithin | crates/treasury-service/src/payout.rs:304-353 | What the running pass has charged stays ahead of what the rows will count. |
| PayoutBudget.DayTotalAges | crates/treasury-service/src/payout.rs:831-854 | Time only lets spent budget go. |
| PayoutBudget.SpentIsTheDayTotal | crates/treasury-service/src/payout.rs:831-854 | What the code sums for the day is what was claimed in the last 24 hours and is in flight or paid. |
| PayoutBudget.OneLostReturnSpendsTheCapTwice | crates/treasury-service/src/payout.rs:477-497 | The bound is met: one return the database does not take lets the total reach twice the cap, for every cap. |
| PayoutBudget.OneLostClaimSpendsTheCapTwice | crates/treasury-service/src/payout.rs:320-345 | So does one claim whose acknowledgement is lost. |
| PayoutBudget.CapIffNothingLost | crates/treasury-service/src/payout.rs:297-365 | For every set of the two losses: the cap holds at every moment of every run that has no others if and only if the set is empty. |
| PayoutSettlement.BooksMatchTheTransfers | crates/treasury-service/src/payout.rs:860-881 | Over every run, whatever the relay names: a redemption is paid exactly when it was settled once, by a confirmed transfer of exactly its quote to its address, its withdrawal is booked at the quote, and the withdrawals come to the sum of those transfers. |
| PayoutSettlement.SettlingStaysDistinct | crates/treasury-service/src/payout.rs:823-829 | Settling a redemption leaves no transfer shared if and only if no other redemption has that transaction for its payment in any spelling. |
| PayoutSettlement.DistinctIffOneSpelling | crates/treasury-service/src/payout.rs:689-747 | No two redemptions share a transfer in any run whose relay names only a given set of hashes, if and only if the set spells each hash in one way. |
| PayoutSettlement.TwoSpellingsShareATransfer | crates/treasury-service/src/tron_verifier.rs:532-534 | For any two spellings of one hash there is a run in which the second redemption is marked paid by the first one's transfer while its own permit has not run. |
| PayoutSettlement.TakenIsSettled | crates/treasury-service/src/payout.rs:707-717 | A redemption whose reference spells a transaction was settled by that transaction. |
| PayoutSettlement.RunKeepsSound | crates/treasury-service/src/payout.rs:591-747 | References, hashes and books stay sound over any run, on the GasFree rail and on the TRX rail. |
| Payouts.RunsJoin | crates/treasury-service/src/payout.rs:254-258 | Passes one after another make one run, so what holds of runs holds of any sequence of passes. |
| PayoutPasses.DueIds | crates/treasury-service/src/payout.rs:286-295 | A pass takes exactly the due redemptions, each once, oldest first. |
| PayoutPasses.Treasury.StartPass | crates/treasury-service/src/payout.rs:259-297 | A pass starts exactly when the treasury is not halted and no permit is in doubt, with the due rows and what the day has spent. |
| PayoutPasses.Treasury.ClaimRow | crates/treasury-service/src/payout.rs:320-353 | A due redemption is claimed, at this moment, before the signer is called; one that is not due is passed over; a claim whose acknowledgement is lost is written or not, and is not paid in this pass. |
| PayoutPasses.Treasury.CallSigner | crates/treasury-service/src/payout.rs:355-360 | The worker hears the signer's answer exactly when it is one the signer can give at the moment it acts and it gets through, and nothing it may rely on otherwise; what it hears is an honest account of what the signer did, whatever happens around the call. |
| PayoutPasses.Treasury.AskSigner | crates/treasury-service/src/payout.rs:355-566 | The last step of a call is the record of what was heard, written or lost as the database has it, or the stop of the process; the pass goes on and the day is charged by what was heard. |
| PayoutPasses.Treasury.RecordReply | crates/treasury-service/src/payout.rs:359-566 | What each reply writes on the row, whether the database takes it or not; that it charges the day's budget exactly when money may have left; and that the pass goes on exactly when no permit was signed or may have been. |
| PayoutPasses.Treasury.PayRow | crates/treasury-service/src/payout.rs:299-567 | From what is found and what meets the row: claimed and asked for when it is due, its reply recorded as it was heard, the day charged and the pass going on or ended accordingly. |
| PayoutPasses.Treasury.DrainOnce | crates/treasury-service/src/payout.rs:254-570 | Nothing when the treasury is halted or a permit is in doubt. Otherwise every due redemption is served in its turn, oldest first, each as what is found and what meets it decide, to the end of the queue or to the first that ends the pass; all of it a run of the protocol, with the world acting at any point. |
| PayoutPasses.RunKeepsNonceAhead | crates/treasury-service/src/payout.rs:769-777 | Over every run the controller's nonce is past every permit it ran, which is what the reads of it rest on. |
| PayoutPasses.Treasury.Pay | crates/treasury-service/src/payout.rs:860-881 | The withdrawal, at most one per redemption, and the status, together. |
| PayoutPasses.Treasury.PaidByAnother | crates/treasury-service/src/payout.rs:823-829 | Whether another redemption has this reference, compared as it is written. |
| PayoutPasses.Treasury.TakePayment | crates/treasury-service/src/payout.rs:689-747 | Paid exactly when the relay names a transaction that the chain shows paying this redemption its quote and that no other redemption has; then the row carries it and the withdrawal is booked, and otherwise nothing changes. |
| PayoutPasses.Treasury.DecideByNonce | crates/treasury-service/src/payout.rs:749-817 | Past the deadline and the grace, the float's nonce returns the redemption or hands it over, one or the other. |
| PayoutPasses.Treasury.ConfirmGasFreeOnce | crates/treasury-service/src/payout.rs:666-820 | Given what the relay names and the nonces read: every submitted permit that does not fail is paid exactly when the chain shows what was named and no other redemption has it by then; else, past its deadline and the grace, returned or handed over by its nonce; and every other row and withdrawal is as it was. |
| PayoutPasses.Treasury.ConfirmPayoutsOnce | crates/treasury-service/src/payout.rs:591-655 | A redemption whose transfer was sent and whose reads do not fail is marked paid exactly when the chain has that transfer, with its withdrawal booked; every other row is as it was. |
| MintPipeline.ProcessRange | crates/treasury-service/src/watcher.rs:157-172 | The chain has shrunk exactly when the cursor is above the head; there is a range exactly when something is confirmed past the cursor, and it is the heights from the cursor to the confirmed head. |
| MintPipeline.RunKeepsGood | crates/treasury-service/src/outbox.rs:124-322 | Over any run: rows waiting to be sent are of intents that count, what the node was given was let through by the breakers at its amount, and a row a pass holds is moved by nobody else. |
| MintPipeline.CreditKeepsGood | crates/treasury-service/src/watcher.rs:11-48 | Crediting a confirmed mint keeps that, whatever the intent's status by then. |
| MintPipeline.RequeueKeepsGood | crates/treasury-service/src/outbox.rs:85-119 | So does queueing a timed-out submission again, or giving it up. |
| MintPipeline.DoubledGrows | crates/treasury-service/src/outbox.rs:440-450 | The wait after an error doubles with each attempt, to its ceiling. |
| MintLedger.LedgerIsTheFold | crates/treasury-service/src/watcher.rs:174-273 | Over every run without a chain reset, at every moment: the bookings are the chain's mints, in chain order and at its amounts, of the confirmed blocks and transactions the watcher has been through. |
| MintLedger.OneBookingPerMint | crates/treasury-service/src/watcher.rs:201-268 | At a block boundary: exactly one booking for each intent whose reference is in the blocks up to the cursor, and no other. |
| MintLedger.EverBookedOnce | crates/treasury-service/src/watcher.rs:19-29 | Resets, rewinds and replays included: no intent is ever booked twice. |
| MintLedger.WatchTxKeepsFold | crates/treasury-service/src/watcher.rs:201-225 | A mint met for the first time is booked, one met before is not, whatever happened to the intent meanwhile. |
| MintLedger.ChainKeepsFold | crates/treasury-service/src/watcher.rs:174-180 | New blocks, and reorganisations above the confirmation depth, leave the fold as it is. |
| MintLedger.AResetAsLongHidesAMint | crates/treasury-service/src/watcher.rs:157-162 | A reset to a chain already as long as the cursor is not noticed: there is a run in which a mint below the cursor is not booked. |
| MintResets.CompleteIffNoticedOrBooked | crates/treasury-service/src/watcher.rs:157-206 | Whatever resets came before: from the next poll on, every mint of the chain up to the cursor is booked if and only if the poll was told a head below the cursor, or the mints the chain now has below where the cursor stood had been booked already; and what is booked meanwhile was minted above where the watcher started. |
| MintResets.StepKeepsCaught | crates/treasury-service/src/watcher.rs:182-268 | Between two resets everything from where the watcher started up to where it is stays booked, and what is booked since was minted there. |
| MintStatuses.CreditedIsFinalIffNotSelected | crates/treasury-service/src/outbox.rs:324-337 | At any moment of any run a credited intent stays credited, whatever happens, if and only if the pass under way has not selected it to be sent, or to be given up after ten attempts. |
| MintStatuses.CreditedBecomesSubmitted | crates/treasury-service/src/outbox.rs:324-327 | There is a run in which the watcher credits a mint between its being sent and its submission being recorded, and the record makes it submitted again. |
| MintStatuses.RecordLoses | crates/treasury-service/src/outbox.rs:324-351 | Recording a submission writes over a credit. |
| MintStatuses.GivingUpLoses | crates/treasury-service/src/outbox.rs:96-101 | So does giving one up. |
| MintStatuses.DroppedUntilCredited | crates/treasury-service/src/outbox.rs:89-101 | A submission given up half-way is moved by nothing but a credit by the watcher, over every continuation: no pass sends it and no person is told. |
| MintStatuses.GivingUpCanStopHalfWay | crates/treasury-service/src/outbox.rs:89-101 | There is a run that leaves one: the last attempt is never confirmed, and the process stops between the two writes. |
| MintStatuses.RunKeepsSound | crates/treasury-service/src/outbox.rs:142-168 | Over any run a credited intent has no open row, and what the breakers let through fits their caps. |
| RedemptionBurns.OwedIffFirstHonours | crates/treasury-service/src/watcher.rs:51-66 | A redemption is owed if and only if a burn of its amount, from its redeemer's address in any case, names it and no burn naming it comes before; and failed if and only if the first that names it has another sender or amount. |
| RedemptionBurns.AfterDecides | crates/treasury-service/src/watcher.rs:90-125 | The next burn keeps every redemption where the first burn naming it puts it: waiting, owed or failed. |
| RedemptionBurns.ReadAgain | crates/treasury-service/src/watcher.rs:63-65 | A burn read before, after a crash or a rewind, changes no redemption. |
| RedemptionBurns.DecidingKeepsBooks | crates/treasury-service/src/watcher.rs:104-126 | At most one redemption moves; it is booked when it is owed, once, and only then. |
| RedemptionBurns.HonouredIsBurned | crates/treasury-service/src/watcher.rs:66-108 | The amounts of all honoured redemptions come to no more than was burned: one burn serves one redemption. |
| RedemptionBurns.OwedIsBurned | crates/treasury-service/src/watcher.rs:66-126 | What the payout protocol may pay for all redemptions together is at most the CLT burned against references. |
| RedemptionBurns.FirstStays | crates/treasury-service/src/watcher.rs:63-65 | Later burns change no decision. |
| RedemptionBurns.Watcher.Create | crates/treasury-service/src/intents.rs:232-253 | A redemption starts undecided, with a quote within its amount and a reference no other has. |
| RedemptionBurns.Watcher.MovePayout | crates/treasury-service/src/payout.rs:320-353 | The payout protocol moves an owed redemption, which stays owed on its burn. |
| RedemptionBurns.Watcher.Confirm | crates/treasury-service/src/watcher.rs:157-172 | More blocks are deep enough: nothing that was decided changes. |
| RedemptionBurns.Watcher.Reset | crates/treasury-service/src/watcher.rs:186-206 | Another chain altogether: what was decided and booked stays. |
| RedemptionBurns.Watcher.ConfirmBurn | crates/treasury-service/src/watcher.rs:66-127 | The named redemption, while it is created, is owed when sender and amount agree and failed when they do not, and no other row moves; when its statements fail nothing moves, and it reports success exactly when they were acknowledged. |
| RedemptionBurns.Watcher.ReadTx | crates/treasury-service/src/watcher.rs:202-261 | A transaction that names a redemption is dealt with, any other passed over; read for the first time or again, interrupted or not, it leaves every redemption where the chain so far puts it. |
| RedemptionBurns.Watcher.WatchBlock | crates/treasury-service/src/watcher.rs:202-270 | The cursor moves exactly over a block that is shown, whose every burn that names a redemption is dealt with, and over which it can be moved; no decision is taken back. |
| RedemptionBurns.Watcher.PollOnce | crates/treasury-service/src/watcher.rs:174-273 | A poll ends behind the first block that is not read through, or at the confirmed height. Wherever it ends every redemption stands where the confirmed chain puts it, what is owed was burned, and failed stays failed; over a reset owed stays owed on its own burn. |
| MintCap.RollingMintCap | crates/treasury-service/src/breakers.rs:38-101 | At every moment of every run, with each breaker decision and the write it guards taken as one step: the intents submitted or credited and created in the last 24 hours come to at most the daily cap, although the verifier approves without looking at it. |
| MintCap.DayTotalIsHeld | crates/treasury-service/src/breakers.rs:38-48 | What the breakers sum for the day is what is approved, submitted or credited of the last 24 hours, but the one asked about. |
| MintCap.HumanKeepsCap | crates/treasury-service/src/intents.rs:147-182 | An approval by a person, of an intent that was sent before included, keeps what was let through within the cap. |
| MintCap.ApprovedByAPerson | crates/treasury-service/src/intents.rs:147-182 | A person may approve an intent exactly when it is created or left to a person, the treasury is not halted and both caps hold with it; then it is queued at once. |
| MintCap.PassKeepsCap | crates/treasury-service/src/outbox.rs:220-242 | So does letting a mint through immediately before it is sent. |
| MintRetries.AtMostElevenSends | crates/treasury-service/src/outbox.rs:418-459 | Between two approvals an intent has at most MAX_ATTEMPTS + 1 recorded sends, for any mix of errors, timeouts, parks and "already processed" answers. |
| MintRetries.ElevenSendsHappen | crates/treasury-service/src/outbox.rs:68-122 | And there is a run with that many. |
| MintRetries.RunKeepsRetries | crates/treasury-service/src/outbox.rs:307-317 | The recorded sends never lead the attempts by more than the one in flight. |
| MintPasses.StuckAreRows | crates/treasury-service/src/outbox.rs:69-81 | The rescue takes exactly the submissions that timed out. |
| MintPasses.DueAreRows | crates/treasury-service/src/outbox.rs:142-168 | The drain takes exactly the pending rows that are due. |
| MintPasses.Pipeline.CreditMint | crates/treasury-service/src/watcher.rs:11-48 | The event exactly when there is none and the intent is not credited, the status exactly if the intent was on its way, the row confirmed: together, and nothing else. |
| MintPasses.Pipeline.WatchBlock | crates/treasury-service/src/watcher.rs:201-270 | A block is a run of the protocol; the cursor moves exactly when all of it was processed and it can be moved. |
| MintPasses.Pipeline.PollOnce | crates/treasury-service/src/watcher.rs:174-273 | A poll is a run of the protocol. From the cursor to what is confirmed, it ends behind the first block that is not read through, or at the confirmed height; where nothing is new it stays, and after the chain shrank it starts from the bottom. |
| MintPasses.Pipeline.CheckMint | crates/treasury-service/src/breakers.rs:50-140 | A mint is let through exactly when the treasury is not halted, it fits the per-transaction cap and, with what counts of the day without itself, the daily cap, the reads succeed, backing would not fall below its threshold and reconciliation agrees. It is called over-large exactly when it is and nothing was said first, and the treasury is halted exactly by backing that would fall too low. |
| MintPasses.Pipeline.RequeueOne | crates/treasury-service/src/outbox.rs:85-119 | A timed-out submission is queued again with one attempt more, or closed and handed over in two writes of which the second may be lost. |
| MintPasses.Pipeline.FailOrBackoff | crates/treasury-service/src/outbox.rs:418-459 | An error costs one attempt and a wait of five seconds doubled each time up to ten minutes, and the tenth fails the row and the intent for good. |
| MintPasses.Pipeline.Refuse | crates/treasury-service/src/outbox.rs:224-242 | A refused mint goes to a person exactly when it is over the per-transaction cap, is otherwise parked for an hour exactly when a deposit backs it, and costs an attempt if not; nothing reaches the node. |
| MintPasses.Pipeline.SubmitOne | crates/treasury-service/src/outbox.rs:219-320 | A due row whose mint the breakers allow is given to the node, and its intent becomes submitted and its row sent when the node takes it or has it already; it is parked while signatures are missing and costs an attempt on an error. One they do not allow reaches nobody and is refused. |
| MintPasses.Pipeline.DrainOnce | crates/treasury-service/src/outbox.rs:124-322 | The rescue comes first; then every row found due, in order, is sent, refused or parked as the breakers and the node answer for it, from the tables the one before left, to the end or to where the process stops. A halted treasury, or a node behind its peers, is given nothing. |
| MintPasses.NothingIsSent | crates/treasury-service/src/outbox.rs:219-242 | Through a whole pass, a halted treasury stays halted and gives the node nothing, and so does one whose node is behind. |
| Rlp.UintRoundTrip | crates/tron-signer/src/evm_tx.rs:29-33 | An integer below 2^128 is written without leading zeros and read back. |
| Rlp.StripValue | crates/tron-signer/src/evm_tx.rs:94-97 | Dropping leading zeros keeps the value of a word. |
| Rlp.PrefixRoundTrip | crates/tron-signer/src/evm_tx.rs:35-44 | The length prefix, short or long, gives back the payload and what follows it, for payloads below 2^64 bytes. |
| Rlp.RoundTrip | crates/tron-signer/src/evm_tx.rs:46-55 | A strict decoder recovers every item tree from its encoding, whatever bytes follow. |
| Rlp.WireFormat | crates/tron-signer/src/evm_tx.rs:35-55 | The bytes of an item as the RLP format has them: a small byte alone, up to 55 bytes after 0x80 or 0xc0 plus the length, and above that after 0xb7 or 0xf7 plus how many bytes the minimal big-endian length takes. |
| Rlp.OnlyEncodings | crates/tron-signer/src/evm_tx.rs:46-55 | The decoder accepts nothing else: what it reads begins with the encoding of what it returns. |
| Rlp.PrefixFree | crates/tron-signer/src/evm_tx.rs:46-55 | No encoding begins the encoding of another item, so the encoding is injective. |
| EvmTx.SigningBytesNameOneTransaction | crates/tron-signer/src/evm_tx.rs:74-77 | Two transactions with equal EIP-155 signing bytes have equal fields, up to how the address is spelt, and the same chain id. |
| EvmTx.RawBytesNameOneTransaction | crates/tron-signer/src/evm_tx.rs:84-89 | Equal raw bytes are one transaction with one signature, and on one chain when the recovery ids are parity bits. |
| EvmTx.SigningBytesDecode | crates/tron-signer/src/evm_tx.rs:58-77 | Any reader of the bytes that are signed finds nine items: nonce, gas price, gas limit, the 20 bytes of the address, value, data, the chain id and two empty ones. |
| EvmTx.RawBytesDecode | crates/tron-signer/src/evm_tx.rs:84-89 | And of the bytes that are sent: the same six, then twice the chain id plus 35 plus the recovery id, then the values of r and of s, without leading zeros. |
| EvmTx.Address | crates/tron-signer/src/evm_tx.rs:58-62 | Accepted exactly when 40 hex digits follow an optional 0x, and then each byte is its two digits. |
| RateLimiting.RateLimiter.Check | crates/payment-orchestrator/src/ratelimit.rs:55-93 | Refused exactly when the identity has a window that is not over and has used its allowance, and told what is left of the window; otherwise counted, in its window or a new one. Others lose their entry only to a newcomer who does not fit: what has expired, or else the oldest. |
| RateLimiting.RetryAfterIsExact | crates/payment-orchestrator/src/ratelimit.rs:59-68 | A refused identity passes again once the time it was told is over, and not before; unless the clock was read before its window began, when it was told too little. |
| RateLimiting.RateLimiter.FindOldest | crates/payment-orchestrator/src/ratelimit.rs:82-86 | The entry closest to expiring. |
| RateLimiting.UnobservableIffNothingLiveIsGone | crates/payment-orchestrator/src/ratelimit.rs:55-93 | In whatever order the clock was read: an identity the bound has not touched is told at any moment, over any requests of its own, exactly what the limiter without a bound would tell it, if and only if it does not find gone an entry that would still be alive. |
| RateLimiting.TheBoundIsUnobservable | crates/payment-orchestrator/src/ratelimit.rs:69-93 | While no request pushes an identity out, and none of its requests reads the clock earlier than another identity's that had the lock before, it is told exactly what the limiter without a bound would tell it, whatever else was dropped. |
| RateLimiting.KeptIsUntouched | crates/payment-orchestrator/src/ratelimit.rs:69-90 | So the bound never touches it. |
| RateLimiting.RoomTakes | crates/payment-orchestrator/src/ratelimit.rs:69-90 | Room for a newcomer takes only entries that have expired and, when that leaves none, the oldest of the rest. |
| RateLimiting.AnEarlierReadingShowsTheBound | crates/payment-orchestrator/src/ratelimit.rs:55-57 | No weaker order is enough: for any two readings in the wrong order there is a run, in order but for them, in which dropping an expired entry is seen. |
| RateLimiting.NeverTooMany | crates/payment-orchestrator/src/ratelimit.rs:69-90 | Over any run there are at most MAX_KEYS entries. |
| RateLimiting.FewerThanTwiceTheLimit | crates/payment-orchestrator/src/ratelimit.rs:55-68 | Of the requests that read the clock within one window, in whatever order, an identity the bound does not touch passes at most 2 * max(limit, 1) - 1. |
| RateLimiting.NearlyTwiceTheLimit | crates/payment-orchestrator/src/ratelimit.rs:55-68 | And there is a burst that passes that often, for every limit. |
| BscWatch.SenderIsCommon | crates/payment-orchestrator/src/bsc_watch.rs:98-113 | A payment has a sender when all its transfers have that one, and is nobody's exactly when two differ. |
| BscWatch.EveryLegOnce | crates/payment-orchestrator/src/bsc_watch.rs:117-171 | Every leg of at least one micro-USDT in a completed block, to the pay-in address or to an address known by then and not our own sweep, is credited or left for a human, not both, at exactly its amount. To the pay-in address it is credited exactly when its one sender had asked by the time it was met and no later than its block; to a user's address it is left exactly when its transaction is credited for another leg. |
| BscWatch.OnceSettledAlwaysSettled | crates/payment-orchestrator/src/bsc_watch.rs:227-323 | A leg left for a human is never credited later and a credited one never left, however often blocks are read again. |
| BscWatch.RecordedAsItIs | crates/payment-orchestrator/src/bsc_watch.rs:294-347 | What is recorded of a leg is its amount on the chain in its own block, credited only to a sender who asked before the block or to the address's owner. |
| BscWatch.PayInFirst | crates/payment-orchestrator/src/bsc_watch.rs:149-160 | The pay-in leg of a transaction is settled before an address of the same transaction is credited. |
| BscWatch.TakenByItself | crates/payment-orchestrator/src/bsc_watch.rs:325-347 | A credit that meets its own transaction hash finds itself there, not another leg. |
| BscWatch.GrowthKeepsSound | crates/payment-orchestrator/src/bsc_watch.rs:22-24 | A longer chain changes nothing that is recorded. |
| BscWatch.NextRange | crates/payment-orchestrator/src/bsc_watch.rs:117-138 | A pass reads from the block after the cursor, or from INITIAL_LOOKBACK below the confirmed head, to the confirmed head or MAX_RANGE blocks on, and nothing only when it has caught up. |
| BscWatch.Watch.RegisterPayer | crates/payment-orchestrator/src/bsc_watch.rs:76-85 | Asking first counts from the first time, and changes nothing recorded. |
| BscWatch.Watch.HandOutAddress | crates/payment-orchestrator/src/addresses.rs:79-98 | A user is given an address for good, and nothing recorded changes. |
| BscWatch.Watch.AddBlocks | crates/payment-orchestrator/src/bsc_watch.rs:22-24 | The chain goes on, and nothing recorded changes. |
| BscWatch.Watch.ByTransaction | crates/payment-orchestrator/src/bsc_watch.rs:98-113 | One walk over the transfers gives every transaction's sum and sender, and no other transaction. |
| BscWatch.Watch.ByDeposit | crates/payment-orchestrator/src/bsc_watch.rs:211-223 | One walk gives every transaction's sum to each of the addresses asked for, and nothing else. |
| BscWatch.Watch.Handle | crates/payment-orchestrator/src/bsc_watch.rs:294-323 | A due payment to the pay-in address not met before is credited, at its amount, to the sender who asked before its block when there is one, and left for a human otherwise; dust, our own sweeps and what was met before change nothing. |
| BscWatch.Watch.CreditAddress | crates/payment-orchestrator/src/bsc_watch.rs:227-292 | A due payment to a user's address not met before is credited to its owner, at its amount, when its transaction is credited for nothing yet, and left for a human otherwise; anything else changes nothing. |
| BscWatch.Watch.WatchOnce | crates/payment-orchestrator/src/bsc_watch.rs:117-171 | A pass stops at the first leg a read or a write fails for, and the cursor moves, over exactly the range, exactly when there is none; it keeps every record. |
| BscWatch.TakeChunk | crates/payment-orchestrator/src/bsc_watch.rs:154-156 | Addresses are asked for at most ADDRESSES_PER_QUERY at a time. |
| ReserveWalk.Reserve.GetReserveBalance | crates/treasury-service/src/tron_verifier.rs:344-375 | With deposits and collections between any two reads and no payment out of custody or a float: a walk that is not refused reports at most what the accounts held together at one moment inside it, and exactly that (saturating) when nothing arrives; and it is not refused while custody and the floats stand still. |
| ReserveWalk.Reserve.FloatBalances | crates/treasury-service/src/tron_verifier.rs:378-388 | Each float's balance in order, each as it was when it was read. |
| ReserveWalk.NothingCollected | crates/treasury-service/src/tron_verifier.rs:353-357 | Between two moments at which custody and the floats stand the same, no address was emptied into them. |
| ReserveWalk.AddressesGrew | crates/treasury-service/src/tron_verifier.rs:361-368 | So every balance read meanwhile is at most the address's balance at the end, and equal to it when nothing arrived. |
| Polling.BoundedWaiting | crates/payment-orchestrator/src/poller.rs:344-359 | With n addresses of which at most h are hot at a time and h below the budget, every address is tried within ceil(n / (budget - h)) passes, whichever fetches fail and however ties fall. |
| Polling.PassedOver | crates/payment-orchestrator/src/poller.rs:326-343 | A pass that leaves an address out moves at least budget - h others behind it. |
| Polling.StampSeen | crates/payment-orchestrator/src/poller.rs:403-415 | Advancing the read watermark of exactly what was read loses no transfer that shows within the hour of overlap. |
| Polling.TieredPoller.DueAddresses | crates/payment-orchestrator/src/poller.rs:344-359 | A budget's worth of addresses, or all: none that is hot is left out for one that is not, and among equals those never tried come first and then those tried longest ago. |
| Polling.TieredPoller.Poll | crates/payment-orchestrator/src/poller.rs:376-415 | Every address taken is stamped as tried. Those whose fetch does not fail, and only those, are fetched once, from an hour before their last successful read, and stamped as read; and no transfer behind a watermark was missed. |
| BscUnits.FloorIsClose | crates/bsc/src/lib.rs:50-54 | The micro-USDT of an amount never exceed it and fall short by less than one. |
| BscUnits.FloorsAddUp | crates/bsc/src/lib.rs:45-54 | Flooring the parts gives no more than flooring the whole. |
| BscReserve.FlooringNeverUnderReserves | crates/treasury-service/src/bsc_verifier.rs:184-197 | The sum of the floored deposits the books owe is at most the floored reserve: pay-in address and listed addresses. |
| BscReserve.SweepNeverLowers | crates/treasury-service/src/sweeper.rs:349-389 | A sweep, whoever asked for it and whatever else was at the address, never lowers the floored reserve. |
| BscReserve.ListedCovers | crates/treasury-service/src/reconciliation.rs:189-199 | An index that is not listed holds nothing the books owe. |
| BscReserve.BscRail.SignerSweep | crates/tron-signer/src/bsc_sweep.rs:120-188 | What each answer leaves: the whole balance at the pay-in address with every deposit of the index, or nothing moved. Swept or nothing to sweep: no deposit recorded before is left at the index. The reserve never falls. |
| BscReserve.BscRail.ByIndex | crates/treasury-service/src/sweeper.rs:369-375 | One group an index, in the order of the oldest rows; each unswept row that is credited or submitted in the group of its own index, and no other row. |
| BscReserve.BscRail.MarkSwept | crates/treasury-service/src/sweeper.rs:468-478 | Exactly the rows given are marked, those marked before stay so, and all of them have their USDT at the pay-in address. |
| BscReserve.BscRail.SweepPass | crates/treasury-service/src/sweeper.rs:349-422 | The indexes are asked about in that order until the gas account is found empty. A row is marked exactly when its index was asked about and found clear and the mark was written, and moved exactly when its balance left; so a marked row has its USDT at the pay-in address. |
| BscReserve.BscRail.AskAbout | crates/treasury-service/src/sweeper.rs:376-420 | One index: marked when the signer says it is clear and the mark is written, and the pass ends exactly when the gas account is empty. |
| BscReserve.BscRail.ReadReserve | crates/treasury-service/src/bsc_verifier.rs:184-197 | The total read is the floored reserve and at least what the books owe; it is refused exactly when it does not fit. |
| BscSweep.Sweeper.Sweep | crates/tron-signer/src/bsc_sweep.rs:120-188 | Each outcome exactly when: on the wrong chain, with nothing there, something pending, gas too dear, the gas account short, and what becomes of the top-up and the transfer. A sweep moves the whole balance read and any other outcome none of it; a top-up is what the transfer lacks; one call costs the gas account at most 10^10 * (150,000 + 21,000) wei; and what is reported as not sent was not. |
| BscSweep.GasIsBounded | crates/tron-signer/src/bsc_sweep.rs:140-165 | The gas and the top-up of one sweep stay within the bound at any price and estimate it accepts. |
| DepositApproval.ServiceFee | crates/treasury-service/src/service_fee.rs:24-35 | There is a fee exactly when it is on, there is a mint, the share or the minimum is at least one unit and neither would take the whole mint; and it is then the share rounded down or the minimum, whichever is more. |
| DepositApproval.MintConservation | crates/treasury-service/src/tron_verifier.rs:924-992 | For every capped approval the user's mint, the operator's and what was held back come to exactly what was observed and ledgered, and the user's share is positive. |
| DepositApproval.SplitAddsUp | crates/treasury-service/src/service_fee.rs:51-112 | The user's and the operator's mints together are the proposal, or the cap where it is less. |
| DepositApproval.FeeOf | crates/treasury-service/src/service_fee.rs:51-84 | There is a fee exactly when it is on, the user is not the operator, another deposit of theirs mints or minted, and the share or minimum leaves something; and it is the service fee of what is minted. |
| DepositApproval.ApproveLands | crates/treasury-service/src/tron_verifier.rs:924-992 | What the approval leaves, field by field, with the fee judged on what is minted after the cap. |
| DepositApproval.RerunChangesNothing | crates/treasury-service/src/tron_verifier.rs:903-908 | Approving again, with whatever arguments, changes nothing. |
| DepositApproval.ApproveKeepsGood | crates/treasury-service/src/tron_verifier.rs:924-992 | Every verified deposit on the books stays accounted for to the last unit. |
| DepositApproval.OneTransactionOneIntent | crates/treasury-service/src/tron_verifier.rs:1133-1160 | Two intents verified on a deposit were verified on two transactions. |
| DepositVerdicts.GasFreeVerdict | crates/treasury-service/src/tron_verifier.rs:1007-1075 | A plain address mints as it is; a GasFree account both services agree on mints what arrived less the hold sized by the treasury's record, is held for a person below the minimum and rejected when the hold takes it all; an address its index does not lead to is rejected; whatever is unknown or not agreed waits. |
| DepositVerdicts.DirectVerdict | crates/treasury-service/src/tron_verifier.rs:872-906 | A direct top-up is rejected exactly when its sender is one of our own addresses, waits while that cannot be read, and is capped at what arrived. |
| DepositVerdicts.BscVerdict | crates/treasury-service/src/bsc_verifier.rs:155-178 | A BSC top-up is rejected exactly when it is not at an address and its sender is none or the pay-in address, and otherwise capped at what arrived and held exactly when it is below the minimum. |
| DepositVerdicts.NormalizedAlike | crates/bsc/src/lib.rs:33-37 | One address has one normal form, however it is spelt. |
| DepositVerdicts.VerdictOf | crates/treasury-service/src/tron_verifier.rs:1309-1322 | By how the deposit came, each with its own conditions: a BSC or direct top-up is rejected, waits, is held below the minimum or approved at exactly what arrived; a deposit to an account by the agreement of both services and the hold; and there is no cap only with the GasFree rail off or at a plain address. |
| DepositApproval.Verifier.Propose | crates/treasury-service/src/intents.rs:69-106 | The unique key refuses a transaction that was named before, and only that. |
| DepositApproval.Verifier.SplitOff | crates/treasury-service/src/service_fee.rs:51-112 | The fee goes from the user's intent to one of the operator's with its own outbox row, exactly when it is on, the user is not the operator and has had a top-up before. |
| DepositApproval.Verifier.ApproveAndLedger | crates/treasury-service/src/tron_verifier.rs:924-992 | Exactly when the intent was still created: its status, its mint at most the cap, what was held back, the fee with the operator's intent, the outbox rows and the ledger event at what was observed, all together; and nothing otherwise. |
| DepositApproval.Verifier.BackfillDepositTx | crates/treasury-service/src/tron_verifier.rs:1133-1160 | The transaction is taken unless another intent has it, and then this intent is rejected. |
| DepositApproval.Verifier.VerifyOne | crates/treasury-service/src/tron_verifier.rs:1272-1360 | An intent that had moved on is left alone; one that loses its transaction to another is rejected; any other is approved, held, rejected or left as its verdict says, with the books that go with it. |

## Left out

- PayoutPermits.OnePermitAtATime: for runs without the four faults; `PayoutFaults.OnePermitIffNoFault` shows that each of them breaks it.
- MintCap.RollingMintCap: counts by status, as the code does; an intent that failed after the node had taken it may still be minted and is then not counted. The backing and reconciliation breakers, which only refuse more, are answers that `MintPasses.Pipeline.CheckMint` is given; an approval by a person needs them as well.
- BscWatch.EveryLegOnce: a leg too large for 63 bits of micro-USDT counts as nothing, as the code has it, and a first pass that stops leaves the starting block to the next one, so it speaks of completed blocks.
- ReserveWalk.Reserve.GetReserveBalance: with no payment out of custody or a float during the walk; one that is undone before the second read would go unseen.
- GasFreeRail.ReserveCoversSupply: for runs without an approval by hand of an unverified deposit, as above. The float is already activated and a redemption's fee is at least the transfer maximum; a treasury permit may be forgotten at any time, which covers its expiry, and the sweeper's `swept_at` and `fee_held_usdt` conditions only narrow what the model lets it ask for.
- BscReserve.BscRail.SignerSweep: a transfer mined after the answer is an answer not heard, at a later moment.
- BscSweep.Sweeper.Sweep: two calls for one address at once, BNB arriving meanwhile and a node that does not answer a read, which ends the call, are not part of it; nor is a transaction lost on the way and mined later.
- DepositApproval.ServiceFee: for the configured range (at most 1,000 basis points and a minimum that is not negative), where the cast to 64 bits never wraps.
- MintLedger.LedgerIsTheFold: a chain reset ends it; what survives one is `MintLedger.EverBookedOnce`, and what is booked after it is `MintResets.CompleteIffNoticedOrBooked`.
- Payout transactions carry one transfer each in the model; the relay's own fee transfer in the same transaction, which pays nobody's quote, and several permits run in one transaction are not represented.
- 64-bit overflow of sums of balances and amounts, except where the code saturates or checks and a member says so.
- Repairs by hand (setting `payout_ref`, returning a redemption, editing rows), which the alerts describe.
- TRX energy, top-ups of the TRX rail and the plain TRON sweep.
- Signatures, Keccak, base58check, key derivation and the search for a recovery id.
- HTTP, WebSocket and JSON; alerts and their de-duplication; metrics; configuration parsing; authentication.
- Reconciliation's `judge`, `should_sweep`, `net_payout`, chain-sync lag and `check_transfer`: each is one branch over its arguments.
- The evidence the verifier reads from TronGrid or a BSC receipt; the model starts from what was observed, in which transaction, and how it came.
- Approval signatures of other authorities, whose absence is only a reason to park.
- RedemptionBurns.Watcher.PollOnce: after a reset only what was decided before it stays; the payout protocol takes the decisions as its `BurnConfirmed` and `BurnMismatched` events.
