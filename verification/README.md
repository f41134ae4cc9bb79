# Relay protocol: model and proofs

This project models the concurrent core of the gas-relay-signer service and proves what it keeps. A user signs metatx
with consecutive nonces that a contract, the RelayHub, demands exactly. The service wraps each one in a transaction of
its own writer account. To send several in a row before any of them is mined it tracks, per user, a *chain* of nonces;
it holds early metatx until their turn, discards those above a quota, and gives the slot of each one back when its
result is known. All of that runs in goroutines that interleave under a handful of locks.

The project has three layers that share their definitions.

* **Specification functions.** `ChainModel` and `HeldModel` say, as functions on values, what each critical section of
  the tracker does; `Correlation`, `Settlement`, `Handout` and `EventBus` do the same for the memory of sent
  transactions, the settlement, the ticket queue and the event bus. Identities (the pointers of the service) are a type
  parameter, so two objects with equal fields stay different. Lemmas named `...Means` say what each of them does in terms
  of the fields, the entries or the logs alone.
* **The service's own objects.** `Tracker.Tracker`, `Correlation.CorrelationMap`, `Settlement.Watcher`,
  `SendPath.Sender`, `UserLocks.LockRegistry`, `Handout.Handouts`, `EventBus.Bus` and the readers in `Receipts` are
  classes and methods with the fields, branches and loops of the source; each method is proved to do what the
  specification function says.
* **Runs.** `Relay`, `Waiting`, `UserLocks`, `Handout`, `BusRuns` and `LockOrder` are state machines whose steps are
  single critical sections, so a run is any interleaving. The chains, the registry, the memory of sent transactions, the
  locks, the tickets' clean-up and the channels change in them by the same functions. A run starts from a service with
  nothing in memory and from a hub in any state, so it may be a restart and its users may have any history. The
  environment (hub, writer account, clock, receipts, failures) may do anything unless a theorem says otherwise. In the
  *benign* runs of `RelayAgreement` no send fails, the hub refuses nothing for a reason of its own, no chain outlives its
  TTL, no receipt is given up, and nobody else, not even an earlier process of the service, spends a user's nonce.

| file | what it is about |
|---|---|
| `Base` | shared types |
| `ChainModel`, `HeldModel`, `Tracker` | chains of nonces and the registry of held metatx |
| `Relay`, `RelayRuns`, `RelayAgreement` | the whole life of a metatx, over every interleaving |
| `Waiting`, `Eviction`, `TurnWait` | the wait for the turn, what becomes of the evicted, how long it lasts |
| `WaitOutcomes` | why a request leaves the wait, in terms of what the deciding critical section saw |
| `LostWakeup` | exactly when a held metatx sleeps through its turn |
| `Quota`, `QuotaRuns` | who is discarded above the quota, and the convergence to it over runs of the wait |
| `Correlation`, `Settlement`, `WatcherPass` | the memory of sent transactions, closing them, one pass of the watcher |
| `RelaySettlement` | the settlement and the loss of entries as steps of the runs, and a pass of the watcher within them |
| `SendPath`, `RelaySending` | the send itself, under the user lock and the global lock, and as steps of the runs |
| `UserLocks`, `LockOrder` | the lock of a user, and why the locks cannot deadlock |
| `Handout`, `HandoutNumbers` | the queue of requests for a nonce, and exactly when a number is handed out twice |
| `EventBus`, `BusRuns` | the ring of events, and what an observer gets |
| `Receipts` | the three readers of a receipt |

## What is not as its comments say

Where the code and its own documentation disagree, the model follows the code.

* `README.md:65` and `service/handout.go:16-19` promise that each request for a nonce gets its own number. `noteSent`
  closes the ticket before the expected nonce advances (`service/reorder.go:267-272`), so two requests can get the same
  one even if no ticket expires (an expired one repeats its number by design, `README.md:66`).
  `HandoutNumbers.TwoRequestsOneNumber` is such a run. The theorems about it are stated for any stretch of a run in which
  what is expected of the user does not move by itself: his chain is dropped only once the hub has caught up with it (as
  by grace, at the end of a burst), and the hub neither goes back nor gets ahead of his chain. In such a stretch
  `HandoutNumbers.RepeatedIffNothingWasSent` says by how much the numbers of two requests differ and when not at all, and
  `HandoutNumbers.RepeatedIffReadWithinNoteSent` that without expiry a number is repeated exactly when the later request
  looks for the chain between the closing and the advance of the send that carries it, and hears nothing newer from the
  hub if it has to ask. `HandoutNumbers.DistinctWhenNotedAtOnce` shows that it would not happen if noting were one step.
* The comment at `service/tracker.go:174-178` says that one lock for the chains and for those who wait leaves no window in
  which the nonce has advanced and a waiter has not noticed. The comparison with the expected nonce
  (`service/reorder_turn.go:87-96`) and the wake channel (`service/reorder_turn.go:133-135`) are different critical
  sections: a notification between them does not wake it, and the metatx sleeps through its turn until its timer or the
  next notification. `LostWakeup.SleepsThroughItsTurnIff` says exactly when, and `LostWakeup.TurnMissed` is such a run.
* The comment at `service/tracker.go:304-306` says that a strictly greater nonce is required to find the highest held
  metatx. The code uses `>=`, which is what makes the last one of a tie win, as that comment also intends.
* An executed call after a failing one makes `GetMetaTxResult` answer `executed` without `success`:
  `Receipts.SuccessVersusExecuted` says exactly when, and `Receipts.ExecutedWithoutSuccess` is such a receipt. A contract
  deployed behind the last failing log is not the one the rewritten receipt shows (`Receipts.AddressesAgree`,
  `Receipts.AddressNotShown`).
* An evicted metatx may still be sent: one evicted between two rounds of its wait comes in turn all the same
  (`Eviction.EvictedBetweenRoundsComesInTurn`). `Eviction.EvictedMayBeSentIff` says exactly where its request must stand.
* An entry that outlives its age is forgotten by the watcher itself, which then closes the transaction without giving
  its slot back (`WatcherPass.PastItsAgeTheSlotIsLost`). Within its age nothing of the kind happens.

## Model

| member | source | states |
|---|---|---|
| RelayRuns.ChainsAreGapFree | service/reorder.go:124-158 | over every run, the nonces sent on one chain are first, first+1, ... in writer-account order, and a chain in use expects the next one, even if it was dropped between the check and the reservation |
| RelayRuns.SlotsAreConserved | service/tracker.go:74-131 | over every run, what a chain in use counts in flight is exactly: sends not yet remembered, remembered ones that carry it, releases taken and not applied, evicted ones, and refusals the hub reported for another sender than the one filed |
| RelayRuns.ReleaseLowersByOne | service/settle.go:153-173 | no release of a chain in use finds its count at zero; it lowers it by one, and a release of a dropped chain changes nothing |
| RelayRuns.DroppedForGood | service/tracker.go:139-153 | a chain once dropped never becomes current again and nothing more is sent on it |
| RelayRuns.GraceDropsOnlyTheQuiet | service/tracker.go:124-130 | helper of `RelayAgreement.GraceLosesNothing`: what the grace callback drops has, besides a zero count, no slot open on it |
| RelayRuns.SettledOnce | service/settle.go:132-173 | over all interleavings of client, watcher and expiry, a remembered transaction is closed at most once and its slot is given back at most once |
| RelayRuns.StepKeepsDropped | service/tracker.go:74-96 | no step makes a dropped chain current: reserving creates a new identity |
| Relay.StepKeeps | service/reorder.go:124-158 | every critical section of every goroutine keeps the system invariant, also when a failed send left its transaction on the wire and when the hub reports a refusal for another sender |
| Relay.NotingExtends | service/reorder.go:271-276 | the chain a send is noted on is the one it was compared with, or a new one |
| Relay.TakenIsCounted | service/settle.go:153-173 | a slot on its way back is counted by its chain |
| Relay.StrayKeeps | service/reorder.go:149-156 | a transaction left behind by a failed send is on no chain and breaks nothing |
| RelaySettlement.SettlingIsThreeSteps | service/settle.go:112-173 | what settle does at once is a claim, a take and a release, between which anybody may act |
| RelaySettlement.LosingAnEntryIsAStep | service/correlation.go:81-97 | an entry forgotten when it is recalled past its age leaves the memory by a step of the runs |
| RelaySettlement.MakingRoomIsSteps | service/correlation.go:108-125 | making room, which loses all that is too old and perhaps one victim at once, is one step of the runs for each entry lost, and touches nothing else |
| RelaySettlement.RunIsMeanwhile | service/watcher.go:85-106 | between any two states of a run, what all goroutines do to the memory is what the pass allows the others: nothing is remembered twice, no age changes, nothing settled is unsettled |
| RelaySettlement.ClaimedStays | service/settle.go:132-145 | over every run, a transaction that anybody claimed is settled for as long as it is remembered |
| RelaySettlement.DoneIsClosedForGood | service/watcher.go:67-140 | over every run, what a pass listed and is done with is settled from its turn on for as long as it is remembered, whatever others do before and after |
| RelaySettlement.ReachableIsCovered | service/correlation.go:35-49 | in every reachable state the slots the memory carries are counted by their chains |
| RelaySettlement.PassOverAReachableState | service/watcher.go:67-140 | a pass over any reachable state gives back exactly one slot for each transaction it gives up |
| RelaySettlement.ReceiptTurnIsSteps | service/watcher.go:67-107 | a turn of the pass that read a receipt is steps of the runs: perhaps an eviction, the reading with the chains it drops, and the settlement |
| RelaySettlement.GivingUpIsSteps | service/watcher.go:121-140 | a turn that gives up is steps of the runs too |
| RelaySending.ComparingIsSteps | service/reorder.go:124-148 | in the runs a metatx stays in the send path iff it carries the next nonce of its user's chain, or of the hub if he has none within its TTL |
| RelaySending.SendingIsSteps | service/relaySignerService.go:151-204 | what the send does at once, the runs do in steps: on the wire, reserved on the user's chain, remembered with it |
| RelaySending.FailingIsSteps | service/reorder.go:149-156 | a failed send drops the chain and notes nothing, whether or not its transaction left |
| RelayAgreement.ExpectedIsWhatTheHubWillExpect | service/reorder.go:66-93 | in benign runs, from any nonces at the hub, while the lock of a user is free the expected nonce is the hub's plus what was sent and not executed |
| RelayAgreement.EverySendIsAccepted | service/reorder.go:124-158 | in benign runs, from any nonces at the hub, every sent metatx meets the exact nonce the hub demands |
| RelayAgreement.GraceLosesNothing | service/tracker.go:119-130 | in benign runs, when grace drops a chain everything that user sent has been executed, but for what his own request has just broadcast; what is expected of him becomes the hub's nonce, and moves only if that broadcast was already executed |
| ChainModel.TouchingMeans | service/tracker.go:56-66 | reading drops a chain iff it was not written for longer than the TTL, whatever it has in flight, with its timer |
| ChainModel.ReservingMeans | service/tracker.go:74-96 | a reservation goes on with a chain within its TTL, never expecting less than before, and starts a new one otherwise |
| ChainModel.ReleasingMeans | service/tracker.go:104-131 | lowers the count of the current chain; with nothing left and no timer yet, arms the timer if there is a grace window and drops the chain if not |
| Tracker.Tracker.ChainLocked | service/tracker.go:56-66 | reading a chain past its TTL drops it, whatever it has in flight, and leaves any other as it was, field by field |
| Tracker.Tracker.ReserveLocked | service/tracker.go:74-96 | the chain found, or a new object, expects at least nonce+1, counts one more and has no timer |
| Tracker.Tracker.ReleaseChain | service/tracker.go:104-131 | only the current chain is discounted; those held are woken; at zero the timer is armed once, or the chain dropped |
| Tracker.Tracker.GraceExpired | service/tracker.go:124-130 | refines the grace callback: compares identity and count again |
| Tracker.Tracker.ForgetChain | service/tracker.go:139-147 | drops by key whatever chain the user has, and wakes everyone held for him |
| Tracker.Tracker.CachedNonce | service/relaySignerService.go:815-823 | the next nonce of the user's chain, if it did not expire |
| Tracker.Tracker.Hold | service/tracker.go:218-227 | a new held metatx goes behind those already held |
| Tracker.Tracker.UnholdLocked | service/tracker.go:241-254 | cuts out that entry only, keeps the order, leaves no empty list, does nothing the second time |
| Tracker.Tracker.WaitTurnLocked | service/tracker.go:258-261 | a fresh wake channel for this round |
| Tracker.Tracker.StopWaitingLocked | service/tracker.go:267-269 | takes the channel away without closing it |
| Tracker.Tracker.NotifyTurnLocked | service/tracker.go:273-277 | wakes everyone held for that user and nobody else, closing each channel once |
| Tracker.Tracker.WakeLocked | service/tracker.go:318-324 | closes the channel of a sleeping metatx, once |
| Tracker.Tracker.EvictHeldLocked | service/tracker.go:290-295 | marked with the count that justified it, unregistered and woken |
| Tracker.Tracker.HighestHeldLocked | service/tracker.go:307-315 | finds the highest nonce, the last of a tie |
| Tracker.Tracker.InflightLocked | service/tracker.go:340-346 | the held ones plus what the chain has pending |
| Tracker.Tracker.MakeRoomFor | service/reorder.go:178-193 | below the maximum admits and changes nothing; else admits only in the place of a higher held one; reports the held plus what the chain has pending |
| Tracker.Tracker.SurplusHeld | service/reorder.go:214-223 | in excess only above the maximum, and only the highest held one |
| Tracker.Tracker.ReserveAndNotify | service/reorder.go:271-276 | reservation and wake-up in one critical section |
| HeldModel.HighestAt | service/tracker.go:307-315 | no held nonce is higher, and every later one is strictly lower |
| HeldModel.EvictionSparesTheChain | service/reorder.go:178-193 | admitted above the quota iff somebody held has a higher nonce; the victim is the highest, the others keep their places, the count falls by exactly one |
| HeldModel.GateMeans | service/reorder.go:178-193 | below the maximum everybody is admitted and nothing changes; from there on only whoever has a lower nonce than some held one; the count is that of the held and of those in flight |
| HeldModel.SurplusMeans | service/reorder.go:214-223 | in excess iff there are more than the maximum and it is the one of the highest nonce, the last of a tie |
| HeldModel.NotifyingMeans | service/tracker.go:273-277 | wakes everyone held for that user and nobody else, and changes nothing else |
| HeldModel.UnholdingMeans | service/tracker.go:241-254 | cuts out that one, keeps the order of the others, leaves no list empty |
| HeldModel.SecondUnholdIsNothing | service/tracker.go:241-254 | unholding again removes nothing |
| Quota.SurvivorsDoNotDependOnTheSchedule | service/reorder.go:214-223 | with no arrivals, whatever the order and number of re-evaluations, the ones left at the end are the same |
| Quota.EachDepartureShrinksTheExcess | service/reorder_turn.go:128-131 | every departure for the quota is of the highest held one and lowers the excess by one |
| Quota.TrimRemovesTheHighest | service/reorder.go:195-211 | what is removed comes after all that stay by nonce and arrival, and those that stay keep their order |
| Quota.PlayTrims | service/reorder.go:214-223 | after any schedule exactly the top n have left, for some n within the excess |
| QuotaRuns.BurstConverges | service/reorder.go:195-223 | in every interleaving of the waiting requests without arrivals for a user, once nobody of his is in excess exactly the highest min(excess, held) have left and the others keep their places |
| QuotaRuns.OnlyTheHighestLeave | service/reorder_turn.go:128-131 | and at every point before, exactly the top n have left, for some n within the excess |
| QuotaRuns.CalmIsAMove | service/reorder_turn.go:58-171 | a step of the waiting requests is a re-evaluation, a departure for the quota, or no change for that user |
| Waiting.RegistryIsExact | service/reorder_turn.go:68-170 | in every reachable state the list of a user names, once each, exactly his requests that registered, are inside the wait and were not evicted; no list is empty |
| Waiting.ExitsLeaveNothingBehind | service/reorder_turn.go:69-86 | every exit leaves the metatx unregistered |
| Eviction.EvictedWhenBoundIsNeverSent | service/reorder_turn.go:128-169 | a metatx evicted while its request looks at the quota, gets its channel or sleeps, open channel or not, is turned away with a count of at least the quota, or its client went away |
| Eviction.EvictedMayBeSentIff | service/reorder_turn.go:86-169 | an evicted metatx may still be sent iff its request stood before the comparison with the expected nonce, before its deadline, or had decided to go on |
| Eviction.EvictedBetweenRoundsComesInTurn | service/tracker.go:290-295 | a run in which a metatx evicted between two rounds comes in turn |
| Eviction.DecisionStays | service/reorder_turn.go:69-86 | a request that decided how it leaves keeps its decision |
| LostWakeup.SleepsThroughItsTurnIff | service/reorder_turn.go:87-141 | a held, unevicted metatx sleeps on an open channel with its turn come iff the last step that moved what is expected of its user brought it to its nonce, and that step woke nobody or came between the comparison and the channel; where every move is announced, iff the last one before the channel did |
| LostWakeup.SleepsThroughItsEvictionIff | service/tracker.go:258-295 | it sleeps on an open channel though evicted iff it was evicted before it got that channel |
| LostWakeup.TurnMissed | service/tracker.go:174-178 | a run in which a metatx falls asleep after the notification of its turn |
| Waiting.RejectionsReportTheQuota | service/reorder_turn.go:128-168 | every rejection for the quota reports at least the quota |
| WaitOutcomes.LeftInTurn | service/reorder_turn.go:87-96 | over every run, whoever left in turn compared its nonce with an expected one that had reached it |
| WaitOutcomes.TurnedAwayForTheQuota | service/reorder_turn.go:128-168 | over every run, whoever was turned away was so by the gate, by itself or by an eviction, and was told the number of the held and in flight found there: at least the maximum, more than it at its own check |
| WaitOutcomes.EvaluatingMeans | service/reorder_turn.go:87-96 | a request leaves in turn iff what it observed has reached its nonce, and with the node's failure iff it observed nothing |
| WaitOutcomes.DeadlineAndClientMean | service/reorder_turn.go:115-151 | its window expired iff it found its deadline past, its client is gone iff that ended its sleep |
| WaitOutcomes.GateTurnsAway | service/reorder.go:178-193 | turned away at the gate iff the quota is full and nobody held has a higher nonce |
| WaitOutcomes.CheckTurnsAway | service/reorder_turn.go:128-131 | turned away at the check iff there are more than the quota and it is the highest, the last of a tie |
| WaitOutcomes.WakingTurnsAway | service/reorder_turn.go:153-169 | turned away when it wakes iff it was evicted, with the count its eviction found |
| Waiting.StepKeeps | service/reorder_turn.go:58-171 | every critical section of every waiting request keeps the registry invariant |
| TurnWait.AwaitTurn | service/reorder_turn.go:58-171 | which round ends the wait and why, for every sequence of observations |
| TurnWait.HeldAtMostGapWindows | service/reorder_turn.go:108-119 | a metatx first held g nonces early is held at most g windows, however the expected nonce moves |
| TurnWait.ExpiryIsStagnation | service/reorder_turn.go:108-119 | an expired window saw no new maximum of the expected nonce for a whole window |
| UserLocks.AtMostOneHolder | service/reorder.go:31-56 | at most one thread of a user is between acquire and release although lock objects come and go |
| UserLocks.EntryWhileUsed | service/reorder.go:25-56 | an entry exists iff some thread counts for it, its count is the number of those threads, and they share the object |
| UserLocks.LockRegistry.BeginLock | service/reorder.go:32-42 | finds or creates the lock and counts one more user |
| UserLocks.LockRegistry.LockUser | service/reorder.go:31-44 | the lock of that user, counted once more and with its mutex taken |
| UserLocks.LeavingUndoesEntering | service/reorder.go:31-56 | releasing undoes acquiring: entries and counts are as they were |
| UserLocks.LockRegistry.Release | service/reorder.go:46-55 | counts one user less, and deletes the entry at zero |
| LockOrder.EveryPathIsDisciplined | service/reorder.go:16-56 | every path takes user lock, global lock and one leaf lock in that order, the console inside the gas window, and sleeps with no lock in hand |
| LockOrder.NoDeadlock | service/prepare.go:243-261 | no reachable state has a circle of goroutines waiting for one another |
| LockOrder.SomebodyCanGo | service/handout.go:64-76 | while some goroutine is busy, a busy one can go on: progress does not depend on a sleeper |
| SendPath.Sender.SendInTurn | service/reorder.go:124-158 | sent iff the nonce is the expected one and the node took it; otherwise the rejection tells expected, got and pending, and a failed send drops the chain |
| SendPath.Sender.ReserveGasAndSend | service/prepare.go:243-261 | nothing is noted unless the transaction left |
| SendPath.Sender.NoteAndRemember | service/relaySignerService.go:181-182 | what was sent is remembered with the chain it was reserved on |
| SendPath.Sender.NoteSent | service/reorder.go:260-279 | the open ticket is closed, the nonce reserved and those held woken |
| SendPath.SendingAdvancesByOne | service/relaySignerService.go:151-204 | a send moves the user's expected nonce from n to n+1 and its count by one, and touches no other user |
| Correlation.CorrelationMap.Remember | service/correlation.go:54-73 | the memory never outgrows its bound; the new entry is in it; every other one stays iff it is within its age and not the victim, and there is a victim, the oldest, only if those within their age fill the memory |
| Correlation.CorrelationMap.EvictLocked | service/correlation.go:108-125 | removes exactly what is past its age, and only if that is not enough the oldest entry |
| Correlation.CorrelationMap.Recall | service/correlation.go:81-97 | forgets an entry past its age |
| Correlation.CorrelationMap.ClaimSettled | service/settle.go:132-145 | wins iff not remembered or not settled, and settles |
| Correlation.UnknownIsClosed | service/settle.go:136-138 | a transaction that is not remembered is closed by whoever comes, and closing it changes nothing |
| Correlation.CorrelationMap.TakeSlot | service/settle.go:154-161 | hands the slot out and leaves none |
| Correlation.CorrelationMap.InFlight | service/watcher.go:40-57 | names each unresolved transaction exactly once |
| Settlement.Watcher.ReleaseSent | service/settle.go:153-173 | releases on the chain the transaction was reserved on, unless the hub refused it |
| Settlement.Watcher.Settle | service/settle.go:112-126 | only the winner of the claim closes and releases |
| Settlement.Watcher.ExpireOne | service/watcher.go:121-140 | gives up only what is older than the receipt timeout |
| Settlement.ReceiptTurnMeans | service/settle.go:68-71 | a turn of the pass that read a receipt drops the chain of every user whom it refuses and wakes everyone held for him; the others keep theirs, but for the slot of the transaction itself |
| Settlement.PassForgets | service/watcher.go:67-107 | after a pass nobody whom a receipt of it refused has a chain; with a grace window all the others keep theirs |
| Settlement.SettlingMeans | service/settle.go:112-173 | closes what is remembered and not settled, and gives its slot back on its chain unless the hub refused it |
| Settlement.Watcher.SettleInFlight | service/watcher.go:67-107 | one pass over everything in flight, node reachable or not; nobody whom a receipt refused is left with a chain |
| Settlement.Watcher.ExpireInFlight | service/watcher.go:110-114 | the same without asking the node |
| WatcherPass.PassClosesWhatIsDone | service/watcher.go:67-140 | a pass closes exactly those whose result is known or overdue, and leaves every other entry as it was |
| WatcherPass.NothingOverdueIsLeft | service/watcher.go:40-140 | after a pass nothing older than the receipt timeout is unclaimed, and what is still unresolved is exactly the rest |
| WatcherPass.GivingUpLowersByOne | service/watcher.go:121-140 | each one given up lowers its still-current chain by exactly one and touches no other chain, wherever the slots carried are counted |
| WatcherPass.NothingOverdueIsLeftAmongOthers | service/watcher.go:85-106 | the same while others settle, take, send and evict between any two turns of the pass, as `RelaySettlement.RunIsMeanwhile` shows they do: nothing overdue stays remembered and unclaimed |
| WatcherPass.PastItsAgeTheSlotIsLost | service/correlation.go:81-97 | past its age an entry loses its slot |
| Handout.HandedOutInOrder | service/handout.go:57-100 | a number is handed out only after every earlier request of that user was answered and its ticket closed |
| Handout.WaitsForTheOneBefore | service/handout.go:64-76 | a request waits only for the one just before it: the queue is a line |
| Handout.CleaningSparesTheOthers | service/handout.go:104-115 | closing a stale ticket removes no newer one from either map |
| Handout.CleaningUpMeans | service/handout.go:104-115 | a closed ticket leaves both maps where it is the one filed |
| HandoutNumbers.TwoRequestsOneNumber | service/reorder.go:267-272 | a run in which two requests get the same number |
| HandoutNumbers.RepeatedIffNothingWasSent | service/handout.go:57-100 | where what is expected does not move by itself between the looks of two requests of a user, the later number is higher by his sends that ended in between and by what the hub moved while it was asked, less the same for the earlier one; with the hub still, the same one iff no send ended |
| HandoutNumbers.RepeatedIffReadWithinNoteSent | service/reorder.go:266-276 | in such a stretch and without expiry, a number is repeated iff the later request looks while the send that carries it has closed its ticket and not yet advanced the expected nonce, and the hub did not move while it was asked |
| HandoutNumbers.ExpectedCountsSends | service/tracker.go:74-96 | in any stretch in which what is expected of a user does not move by itself, it rises by exactly his sends that ended |
| HandoutNumbers.DistinctWhenNotedAtOnce | service/reorder.go:260-279 | if closing the ticket and advancing were one step, all numbers of a user would be distinct and increasing, across chains forgotten by grace and any start of the hub |
| Handout.Handouts.Enqueue | service/handout.go:64-72 | the new ticket becomes the last of the queue |
| Handout.Handouts.CloseTicket | service/handout.go:104-115 | closed, and out of a map only where it is the one filed |
| Handout.Handouts.CloseOpenTicket | service/handout.go:118-126 | closes the ticket whose number is out, if any |
| EventBus.Bus.constructor | events/events.go:66-79 | a bus without capacity is inert |
| EventBus.Bus.Retain | events/events.go:118-126 | the ring read from its start is the last events in order |
| EventBus.Bus.Publish | events/events.go:88-114 | the ring agrees with the whole history; every subscriber is offered the event exactly once |
| EventBus.Bus.ReplayLocked | events/events.go:141-150 | equals filtering the retained end of the history by number |
| EventBus.Bus.ReplayAndSubscribe | events/events.go:174-201 | what is retained and the registration belong to the same instant |
| EventBus.Bus.Cancel | events/events.go:189-200 | removes and closes once, however often it is called |
| EventBus.WritingShifts | events/events.go:118-126 | writing behind a ring that is not full appends, over a full one shifts |
| EventBus.NothingAfterTheLastNumber | events/events.go:163 | the number that asks for no replay is not a special case |
| BusRuns.ReplayAndSubscriptionPartition | events/events.go:88-201 | over every run an observer gets, strictly increasing, what it asked for and was retained, then every event until cancelled except those that found its channel full, and nothing else |
| BusRuns.EndedByItsCancel | events/events.go:189-200 | an observer that is not live was cancelled, and what it gets ends with what was published at that time |
| BusRuns.CancelledForGood | events/events.go:189-200 | from its cancellation on an observer is not live |
| BusRuns.RunKeeps | events/events.go:88-201 | over every run, however long: each position published while subscribed was put in the channel once, in order, or found it full; nothing after the cancellation |
| Receipts.ReadHubEvents | service/settle.go:35-104 | the loop answers what the logs say, in terms of last and existing events |
| Receipts.GetMetaTxResult | service/relaySignerService.go:318-402 | the same for the parsed result |
| Receipts.GetTransactionReceipt | service/relaySignerService.go:207-314 | the same for the receipt rewritten in place and copied at each failure |
| Receipts.SuccessMeans | service/relaySignerService.go:364-396 | success iff no call reverted, the hub refused nothing, and a verified deploy was followed by a contract or a call; the status is forced to 0 and a reason shown exactly otherwise |
| Receipts.SilenceMeans | service/settle.go:86-95 | "no code created" is the reason, in all three, iff the hub verified a deploy and then said nothing |
| Receipts.ExecutedMeans | service/settle.go:86-101 | executed is what the last call or refusal says; without one, whether a contract was deployed, and unknown to the settlement if the hub said nothing |
| Receipts.FailureMeans | service/relaySignerService.go:251-268 | reason and address of a failed receipt are those at its last failing log |
| Receipts.LastOnesMean | service/settle.go:48-79 | address, code and reason are those of the last contract, refusal and reverted call |
| Receipts.RejectedMeans | service/settle.go:68-71 | the chains dropped while reading are those of the senders the hub refused, and of nobody else |
| Receipts.StatusAndSuccessAgree | service/relaySignerService.go:244-305 | status forced to 0 iff success is false iff a call reverted, the hub refused or a deploy failed in silence; same reason in both |
| Receipts.ExecutedAgrees | service/settle.go:41-103 | when the settlement knows whether it was executed, the parsed result says the same; when it does not, the hub said nothing |
| Receipts.SuccessVersusExecuted | service/relaySignerService.go:364-396 | not executed implies no success; they differ iff a failing log is followed by an executed call |
| Receipts.AddressesAgree | service/relaySignerService.go:251-267 | both show the same address iff nothing failed, no contract was deployed behind the last failing log, or the last one there has the address known at that log |
| Receipts.ExecutedWithoutSuccess | service/relaySignerService.go:367-374 | a receipt that is executed and not a success |
| Receipts.AddressNotShown | service/relaySignerService.go:251-268 | a receipt whose deployed address is not shown |

## Left out

- Tracker.Tracker.ReserveLocked: nonces are unbounded; the wrap of nonce+1 at 64 bits, which needs a hub nonce of 2^64-1, is not modelled.
- RelayRuns.SettledOnce: a hash is unique per broadcast, so it is remembered once; a transaction that is no longer remembered may be closed again, as in the source.
- Correlation.CorrelationMap.Remember: entries are values in a map instead of objects behind pointers; no pointer to one leaves the critical sections of the source.
- TurnWait.AwaitTurn: only the loop with its deadline; what the wait does to the registry is in `Waiting`, step by step, and in the methods of `Tracker.Tracker`.
- BusRuns.ReplayAndSubscriptionPartition: stated for fewer than 2^64 publishes, when the number of an event wraps; by position it holds for any number (`BusRuns.RunKeeps`).
- Receipts.ReadHubEvents: logs come decoded; the text of an error code and of a revert reason is not modelled.
- UserLocks.LockRegistry.LockUser: runs to the end when the mutex is free; waiting for it is a step of the runs.
- The order in which Go yields the entries of a map: every order is allowed.
- `SendMetatransaction`, which sends without the user lock and is not reached from the JSON-RPC or HTTP handlers.
- RPC connections, ABI, RLP and Keccak, signature checks, permissioning, the gas counter of a block, configuration, HTTP and the dashboard, reconnection with backoff, and real clocks: inputs, or absent.
- The path with reordering switched off, which writes the same tracker without counting what is in flight.
