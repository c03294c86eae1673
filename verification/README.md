# SUI Combats: verified models of its stateful core

This project models, in Dafny, the stateful logic behind SUI Combats (wager fights on the Sui
blockchain) and proves what that logic promises: that a staged loadout reaches the chain exactly,
that disconnecting cannot be used to stall or escape a fight, that every staked coin is accounted for
and can be taken back, and that the server's queues, lobbies, stores and codecs keep their rules in
every run. The modelled code is the production code: TypeScript under `server/src` and
`frontend/src`, and the Move contracts under `contracts/sources`.

Verify everything with `dafny verify dfyconfig.toml`.

## Layout

| file | what it models |
|---|---|
| `common.dfy` | options, results, minimum and maximum, lower-casing |
| `loadout.dfy` | the save builder as a compiler from two loadouts to a list of chain calls, and the chain machine those calls run on |
| `loadout_save.dfy` | when a save goes through, and what it leaves on chain |
| `save_outcomes.dfy` | why a save is refused, and what one leaves when the client's picture was out of date |
| `staging.dfy` | the two-handed classifier and whole staging sessions, stale renders included, followed by a save |
| `play.dfy`, `play_runs.dfy` | the player's picks, the session and the chain over whole runs, with renders and lists of any age, and runs that show what can be refused or lost |
| `scheduler.dfy` | a clock that cannot pass a due timer |
| `grace.dfy`, `grace_history.dfy` | the reconnect grace ledger, and its refinement of plain connection histories |
| `fight_pause.dfy` | the pausable turn timer |
| `fight_room.dfy`, `fight_time.dfy` | a fight room composed of both, and how long it can be stalled |
| `fight_events.dfy` | the same fight told from its events alone: what resolves a turn, what ends the fight, when each timer goes off |
| `treasury_queue.dfy` | the bounded FIFO queue with re-entrant thunks, as a machine and as code that calls back into itself, its drain, and the retry loop |
| `arena.dfy`, `arena_world.dfy` | the wager contract, one wager and all of them, with accounts and registry |
| `accept_gate.dfy` | the busy predicates and the accept decision |
| `matchmaking.dfy` | the greedy first-come matcher |
| `isolation.dfy`, `isolation_effects.dfy`, `isolation_runs.dfy` | queue, lobby and fights under every interleaving of handlers, each of them told by itself, and runs from an empty server that break the gates |
| `boot_recovery.dfy` | lobby rehydration and the orphan sweep, alone and side by side |
| `fight_requests.dfy` | the challenge store and its two indexes |
| `direct_messages.dfy` | in-flight direct-message calls over one socket |
| `leaderboard.dfy` | the Hall of Fame order and its pages |
| `event_codec.dfy` | the marketplace events' BCS layout (Binary Canonical Serialization, integers and structs) |
| `mist_text.dfy` | MIST amounts as text and the stake field |

Code that updates state in place is a class whose methods are tied to a function on values (its
`State()` before and after); the theorems are about that function, over whole runs. Results of chain
reads, signatures, database calls and React renders are parameters or nondeterministic events.

## Where the code does not do what it says

Each of these is a theorem with the exact condition, and where it breaks, a concrete run.

- **Skipped slots.** The save builder leaves out a slot when one side of the change is a server-only
  item, yet the client then records the whole reconciled loadout as committed. After a landed save
  that record is the chain's exactly when no on-chain item was staged over a server-only one. Where
  one was, it is recorded but not worn, and taking it off makes the next save abort with 2
  (`StagedRecordAgreesIff`, `RecordedSwordIsNotWorn`).
- **Moving an item.** An item worn at the start belongs to the character, so it cannot be an input of
  the transaction that takes it off. A save is refused before its first call exactly when it puts on
  an item worn at the start: a ring cannot change fingers in one save, and a list of items fetched
  before the last save leads a player there (`RefusedExactlyForWornItems`, `EverySaveDecided`,
  `OldListRefusesSave`). Two clicks in one render can stage one ring on two fingers, and the save then
  stops at the second (`TwoClicksOneRing`).
- **Clicks while a save is in flight.** What is staged while the wallet is signing is gone once the save
  has landed (`ClickWhileSigningIsLost`). Saving is disabled only by the component that is signing, so
  after a remount two saves can be in flight; if the older one lands last, the client records less
  than the character wears. The record is the chain's in every state of a run exactly if no save lands
  while leaving alone a slot the chain holds otherwise (`RecordStaysTrueIff`, `OlderSaveLosesTrack`).
- **A turn resolved twice.** When a player drops and returns in the pause between two turns, the
  resumed timer is due at once and the turn just resolved is resolved again. Turns are resolved once
  each exactly up to such a resume (`TurnsResolvedOnce`, `ResumeBetweenTurnsResolvesAgain`,
  `BlinkBetweenTurns`).
- **The thirty-minute reclaim.** It is described as keeping a losing player from escaping a loss, but
  anyone may call the ten-minute expiry, with the same effect (`ExpirySubsumesReclaim`).
- **Settlement has a largest stake.** The fee product is computed in 64 bits, so a settlement goes
  through only for stakes up to (2^64 - 1) / 1000 MIST (`SettleExactly`).
- **One open wager per wallet** holds for creators only; a challenger may still open its own
  (`OneOpenWagerPerCreator`, `ChallengerMayStillCreate`).
- **Queue against lobby and fights.** A late handshake, or an adoption after a restart, can list a
  wager of a player who is queued by then; a matched player can queue again before the fight exists;
  accepting a friendly challenge never looks at the queue; and when a creator approves a queued
  challenger, the clean-up drops creator and caller, which are the same wallet. Nothing else breaks
  the separation, in any run (`QueueApartIff` and the five runs from an empty server).
- **Whose fight it is.** Any caller that is not the creator is taken for the challenger, so a third
  wallet can send the accept of a live wager and get the fight (`FightIsTheStakersExactly`,
  `ThirdWalletGetsTheFight`); a handshake written back after the fight has started lists the wager
  again, and another accept starts a second fight (`GoneOnceLaunched`, `LateHandshakeStartsSecondFight`).
- **Sweep.** The orphan sweep's header speaks of ACTIVE wagers; the code also cancels
  PENDING_APPROVAL ones, which can leave the lobby showing a settled wager (`StaleCardExactly`). Its
  counters miss dropped WAITING rows and count an undeletable settled row twice (`SweepCounts`).
- **Error frames.** An `error` frame names no request, so it fails every direct message in flight,
  including ones the server accepted (`ErrorFailsEveryCallInFlight`, `ErrorForAnotherSend`).
- **Rounding.** `suiToMist` is described as rounding down; it rounds to the nearest MIST
  (`RoundsDownExactly`).

## Model

| member | source | states |
|---|---|---|
| Loadout.CollectSlotOps | frontend/src/lib/loadout-tx.ts:142-166 | The scan of the slots collects exactly the changed slots that have a chain side, in order, and reports exactly the ones it leaves out |
| Loadout.ChangedInOrder | frontend/src/lib/loadout-tx.ts:142-166 | The changed slots are in the canonical order of the slot table |
| Loadout.BuildSaveLoadoutTx | frontend/src/lib/loadout-tx.ts:105-220 | The emitted calls are all unequips, then all equips, then one save marker if anything changed; the off hand is cleared exactly when a two-handed weapon is pending beside it |
| Loadout.ChainCharacter.Execute | contracts/sources/equipment.move:50-120 | One call performs the specified step on the character or aborts leaving it untouched |
| Loadout.ChainCharacter.ExecuteAll | frontend/src/lib/loadout-tx.ts:187-210 | A transaction is refused when an item it puts on is not in the wallet as it starts or one argument is used twice, and otherwise performs all its calls or none |
| Loadout.RunStopsAt | frontend/src/lib/loadout-tx.ts:177-210 | The first failing call decides a transaction's outcome, whatever follows it |
| Loadout.EquipAborts | contracts/sources/equipment.move:50-120 | Each abort code of an equip comes exactly when its rule is the first that fails |
| Loadout.UnequipAborts | contracts/sources/equipment.move:362-400 | Taking off aborts exactly for another's character, one in a fight or an empty slot; the save marker only for another's |
| Loadout.OffersWhatTheChainTakes | frontend/src/lib/equipment-picker.ts:62-98 | The slots the client offers for an on-chain item are exactly those where the chain takes it, but for a shield not minted for the off hand |
| Loadout.RunConserves | contracts/sources/equipment.move:362-400 | No list of calls creates, loses or duplicates an item between wallet and slots |
| Loadout.TransactionConserves | frontend/src/lib/loadout-tx.ts:187-210 | A transaction that lands neither creates, loses nor duplicates an item and keeps the two-handed rule; refused and aborted ones change nothing, by ExecuteAll |
| LoadoutSave.SaveExact | frontend/src/lib/loadout-tx.ts:105-220 | A save goes through if and only if nothing changes, or the owner's unlocked character gets fitting, distinct items that the wallet holds as it starts, leaving the off hand free; it then lands exactly on the target loadout and conserves all items |
| LoadoutSave.SaveLandsOnReconciled | frontend/src/lib/loadout-tx.ts:105-220 | With all items on chain and each one to be put on held by the wallet at the start, the save never aborts, skips nothing and lands on the reconciled loadout |
| LoadoutSave.RefusedExactlyForWornItems | frontend/src/lib/loadout-tx.ts:187-197 | When the client's items are the owner's, a save is refused at its inputs if and only if it puts on an item worn at the start |
| LoadoutSave.NoOpSaveIsEmpty | frontend/src/lib/loadout-tx.ts:202-210 | A save with nothing to change emits no call at all |
| LoadoutSave.MovedRingIsRefused | frontend/src/components/items/inventory.tsx:307-322 | From any chain wearing one ring, the save that moves it to the other finger is refused |
| SaveOutcomes.ThreeOutcomes | frontend/src/lib/loadout-tx.ts:177-210 | A save of well-typed items in a legal arrangement by the owner has exactly three outcomes: refused at its inputs if it puts on an item not held, stopped at an item used twice if it otherwise puts one on twice, and landed otherwise |
| SaveOutcomes.LandedLeaves | frontend/src/lib/loadout-tx.ts:177-210 | On any chain, whatever the client believed of it, a landed save empties what it sheds, fills what it puts on and touches nothing else |
| SaveOutcomes.RecordIsTrueIff | frontend/src/hooks/useGameStore.ts:490-499 | On any chain, what the client records after a landed save is what the chain holds exactly if it was already so in every slot the save made no call for |
| Staging.ClassifierExact | frontend/src/lib/two-handed-weapons.ts:55-84 | The classifier's three answers are exactly: staging is legal; clearing the off hand makes it legal; it is not legal in the off hand |
| Staging.EveryClickExactly | frontend/src/hooks/useEquipmentActions.ts:51-178 | After any run of clicks, whatever the render, one more click leaves each slot exactly as told: a pick its item, unless turned down or left to the server, with the off hand emptied for a two-handed weapon; a taking-off an empty slot if the render shows an on-chain item; a discard what the last landed save sent; only a landed save changes the record |
| Staging.DiscardRestores | frontend/src/hooks/useGameStore.ts:485-489 | A discard after any run leaves pending what the last landed save sent, or the record at the start, and a save then has no call to make |
| Staging.RecordIsLastSaved | frontend/src/hooks/useGameStore.ts:490-499 | What is recorded as committed is always what the last landed save of the run sent |
| Staging.StagingKeepsOffhandOneHanded | frontend/src/hooks/useEquipmentActions.ts:51-218 | Over every session, server-only items and renders any number of states old included, no two-handed weapon reaches the off hand of either loadout |
| Staging.FreshStagingKeepsLegal | frontend/src/hooks/useEquipmentActions.ts:51-218 | When clicks are decided on the current state, the pending loadout is legal in every state of every session |
| Staging.StagedSaveLands | frontend/src/hooks/useEquipmentActions.ts:51-218 | A save after any session, server-only items included, of well-typed on-chain items each staged once and within reach lands exactly on what its calls aim at, with no two-handed abort left; without server-only items that is the reconciled loadout, and after fresh clicks the pending one |
| Staging.TargetIsFree | frontend/src/lib/loadout-tx.ts:105-220 | Leaving out the slots where an on-chain and a server-only item meet never makes a save aim at a two-handed weapon beside an off-hand item |
| Staging.ServerItemsOnlyFromCommitted | frontend/src/hooks/useGameStore.ts:436-499 | Over every session, a pending server-only item is the committed one of that slot |
| Staging.RecordAgreesIff | frontend/src/hooks/useGameStore.ts:469-499 | After a landed save, the chain's slots are what the client records exactly when no on-chain item was staged over a server-only one |
| Staging.StagedRecordAgreesIff | frontend/src/hooks/useGameStore.ts:469-499 | After any session, a save that changes something lands, and the client's record is then the chain's exactly when no on-chain item was staged over a server-only one |
| Staging.RecordedSwordIsNotWorn | frontend/src/lib/loadout-tx.ts:145-166 | A run of clicks whose save lands while the record shows a sword the chain does not hold, and whose next save aborts with 2 |
| Staging.StaleClickNeedsAutoClear | frontend/src/hooks/useEquipmentActions.ts:51-218 | Two clicks in one render that only the builder's own clearing makes legal |
| Play.EverySaveDecided | frontend/src/hooks/useEquipmentActions.ts:131-218 | After any run of picks, removals, discards, saves and refetches, each clicked in a render of any age, with server-only items worn or not: a save from a render that shows the loadout the chain holds is refused at its inputs exactly if it puts on a worn item, stops exactly if it otherwise puts one on twice, and otherwise lands exactly on what its calls aim at |
| Play.DiscardRestoresRecord | frontend/src/hooks/useGameStore.ts:485-489 | The same for the player's runs with the chain: a discard goes back to what the last save that landed on chain sent |
| Play.MoveExactly | frontend/src/lib/equipment-picker.ts:115-170 | Each move leaves each slot exactly as told; a pick does nothing unless the render lists the item, or it is server-only, for a slot of its type and level, and stages it nowhere |
| Play.FetchedListIsHeld | frontend/src/app/game-provider.tsx:865-884 | With a refetch after every landed save the list is exactly what the wallet holds |
| Play.RecordStaysTrueIff | frontend/src/hooks/useGameStore.ts:469-499 | Over any run the client's record is the chain's in every state if and only if no save of it lands while leaving alone a slot the chain holds otherwise than the client records it |
| Play.EverySaveLands | frontend/src/lib/equipment-picker.ts:115-170 | When clicks are made in the current render, picks are of held items and no item takes over a server-only one, every save of every run lands on the on-chain part of the pending loadout |
| PlayRuns.OldListRefusesSave | frontend/src/lib/equipment-picker.ts:115-170 | A run in which a list fetched before a save offers the saved ring again, and the next save is refused |
| PlayRuns.TwoClicksOneRing | frontend/src/lib/equipment-picker.ts:115-170 | A run in which two clicks in one render stage one ring twice, and the save stops at the second use |
| PlayRuns.ClickWhileSigningIsLost | frontend/src/hooks/useEquipmentActions.ts:164-178 | A run in which a ring staged while a save is being signed is gone once it has landed |
| PlayRuns.OlderSaveLosesTrack | frontend/src/hooks/useEquipmentActions.ts:131-178 | A run in which the older of two saves in flight lands last, and the client then records less than the character wears |
| Grace.ReconnectGrace.Disconnect | server/src/ws/reconnect-grace.ts:125-184 | Dropping performs the ledger's specified step: new grant, already pending, or forfeit at once |
| Grace.ReconnectGrace.Reconnect | server/src/ws/reconnect-grace.ts:194-207 | Returning banks the elapsed time, capped by the budget, cancels the timer and names the fight |
| Grace.ReconnectGrace.ClearFight | server/src/ws/reconnect-grace.ts:218-224 | The loop over the records removes exactly the fight's records and cancels exactly their timers |
| Grace.ReconnectGrace.Fire | server/src/ws/reconnect-grace.ts:162-168 | A due forfeit timer drops its wallet's record and is consumed |
| GraceHistory.LedgerRefinesHistory | server/src/ws/reconnect-grace.ts:125-207 | In every run the used time is min(budget, sum of the wallet's disconnected stretches in the fight), and each pending record owns its one timer |
| GraceHistory.NextGrantIsWhatIsLeft | server/src/ws/reconnect-grace.ts:125-184 | After any number of cycles the next drop is granted exactly the budget minus that sum, with its fight, expiry, used time and budget; a second close changes nothing, and with nothing left it forfeits |
| GraceHistory.ReturnNamesItsFight | server/src/ws/reconnect-grace.ts:194-207 | Over every run a return names exactly the fight the wallet's open stretch belongs to, and nothing when there is none |
| GraceHistory.WalletsAreIndependent | server/src/ws/reconnect-grace.ts:125-207 | A wallet's drops and returns change no other wallet's record or timer |
| GraceHistory.ForfeitExactlyAtBudget | server/src/ws/reconnect-grace.ts:125-184 | On a punctual clock every forfeit happens when disconnected time equals the budget, and no wallet's disconnected time ever exceeds it |
| GraceHistory.ExhaustedWalletStopsTime | server/src/ws/reconnect-grace.ts:161-168 | A wallet that has used its budget while away has a due timer, and time cannot pass it |
| GraceHistory.CancelledTimersRetire | server/src/ws/reconnect-grace.ts:132-224 | Reconnecting, switching fight and clearing a fight each retire the timer they cancel |
| GraceHistory.RetiredTimersNeverFire | server/src/ws/reconnect-grace.ts:132-224 | A retired timer can fire in no continuation |
| FightPause.PauseableFight.PauseFightTimer | server/src/ws/fight-pause.ts:60-82 | Pausing performs the specified step on the fight's four timer fields and reports what it captured |
| FightPause.PauseableFight.ResumeFightTimer | server/src/ws/fight-pause.ts:84-98 | Resuming re-arms the timer with what was left, or does nothing when not paused |
| FightPause.CaptureHolds | server/src/ws/fight-pause.ts:60-82 | From a pause on, however long the absence and however often it is reported, what the first pause captured stays, no timer runs and no running time is counted |
| FightPause.TurnTimeConserved | server/src/ws/fight-pause.ts:60-98 | Over every interleaving, un-paused time plus time left is the budget, at most one timer is live, and the timeout comes when un-paused time reaches the budget |
| FightPause.ReturnFindsWhatWasLeft | server/src/ws/fight-pause.ts:60-98 | Whoever leaves a running turn and comes back, whatever happens in between, finds exactly the time that was left, with a timer due then, and both calls report it |
| FightPause.RepeatsChangeNothing | server/src/ws/fight-pause.ts:60-98 | Dropping again during an absence, or coming back again after it, changes nothing and reports just that, with the time or deadline that stands |
| FightPause.BudgetUsedMeansDue | server/src/ws/fight-pause.ts:84-98 | With the budget used up, a running turn's timer is due |
| FightPause.LateResumeFiresAgain | server/src/ws/fight-pause.ts:84-98 | A pause and resume after the timeout makes the turn time out again |
| FightRoom.GraceSideHolds | server/src/ws/fight-room.ts:1305-1465 | In every run of a room the ledger's timers match, away is exactly pending disconnect, and paused time is at most both players' time away |
| FightRoom.AwayWithinGrace | server/src/ws/fight-room.ts:1305-1375 | No player's absence in a fight exceeds the grace |
| FightTime.StallBound | server/src/ws/fight-room.ts:402-615 | A turn is over within its timer plus both graces, and a fight in turn n has lasted at most n rounds plus both graces, however drops and returns interleave |
| FightTime.PausedIffSomeoneAway | server/src/ws/fight-room.ts:1305-1465 | A running turn is frozen exactly while a player is in a pending disconnect |
| FightTime.TurnsResolvedOnce | server/src/ws/fight-room.ts:402-582 | Without a resume between turns, the turns are resolved 1, 2, 3, ..., each once |
| FightEvents.ResolvesExactly | server/src/ws/fight-room.ts:463-582 | Without a resume between turns an event resolves a turn exactly if it is the running turn's timeout, or one player's action when the other has acted since the turn began; and it is the running turn |
| FightEvents.FinishesExactly | server/src/ws/fight-room.ts:543-620 | A fight is finished by an event exactly if the event resolves a turn that decides it, fires a forfeit, or is a drop by a player whose grace is gone; a forfeit comes when its player has been gone for exactly the grace, and the other player wins |
| FightEvents.NoWinnerYet | server/src/ws/fight-room.ts:1305-1375 | A fight that goes on has no winner by forfeit |
| FightEvents.FinishedLeavesNothing | server/src/ws/fight-room.ts:588-615 | A finished fight leaves no grace record, no forfeit and no turn timer behind, whatever comes after |
| FightEvents.LedgerIsConnections | server/src/ws/fight-room.ts:1305-1400 | While a fight goes on the ledger has each player gone exactly when, and for as long as, drops and returns say |
| FightEvents.ReturnFindsItsFight | server/src/ws/fight-room.ts:1378-1392 | In every run of a room whoever comes back is led to this room's fight, exactly while gone |
| FightEvents.TimersKeepTime | server/src/ws/fight-room.ts:402-582 | A turn times out when it has been played with both players there for exactly twenty seconds, and the next starts exactly one and a half seconds after the last was resolved |
| FightTime.ResumeBetweenTurnsResolvesAgain | server/src/ws/fight-room.ts:1378-1465 | A resume between turns, from any such state, lets the last turn be resolved again |
| FightTime.BlinkBetweenTurns | server/src/ws/fight-room.ts:1378-1465 | In every fight a drop and return between turns 1 and 2 resolves turn 1 twice |
| TreasuryQueue.QueueAlwaysGood | server/src/utils/sui-settle.ts:126-158 | In every reachable state, re-entrant enqueues and failures included, occupied slots stay within the concurrency, tasks start in enqueue order, and enqueued = waiting + occupying + released |
| TreasuryQueue.IdleMeansFullOrEmpty | server/src/utils/sui-settle.ts:126-141 | When no call is in progress, nothing waits or every slot is occupied |
| TreasuryQueue.OutcomesNeverChange | server/src/utils/sui-settle.ts:126-141 | A settled task keeps its outcome for ever |
| TreasuryQueue.OutcomeIsItsSettlement | server/src/utils/sui-settle.ts:126-141 | In every run a task has an outcome if and only if the run settles it with exactly that one |
| TreasuryQueue.SettledOnce | server/src/utils/sui-settle.ts:126-141 | No run settles a task twice |
| TreasuryQueue.NothingIsLost | server/src/utils/sui-settle.ts:126-158 | Waiting, occupying and released tasks are together exactly those that were enqueued |
| TreasuryQueue.SerialSettlesInOrder | scripts/qa-treasury-queue.ts:176-242 | With one slot, tasks settle in enqueue order |
| TreasuryQueue.StepsDrain | server/src/utils/sui-settle.ts:126-141 | Every step but a new task strictly decreases a measure |
| TreasuryQueue.StuckMeansDrained | server/src/utils/sui-settle.ts:126-141 | When nothing but a new task is possible, everything ever enqueued has settled and been released |
| TreasuryQueue.DrainIsBounded | server/src/utils/sui-settle.ts:126-141 | Without new tasks a run has boundedly many steps |
| TreasuryQueue.PumpToEndMeans | server/src/utils/sui-settle.ts:126-141 | A pump without re-entrance starts exactly min(free slots, waiting) tasks from the front |
| TreasuryQueue.PlainPump | server/src/utils/sui-settle.ts:126-141 | When no thunk enqueues, what the calls do is the plain pump |
| TreasuryQueue.Treasury.PumpTreasuryQueue | server/src/utils/sui-settle.ts:126-141 | Whatever the started thunks enqueue, the loop follows the machine to a full or empty queue, having started min(free slots, waiting + newly enqueued) tasks, and records the largest depth |
| TreasuryQueue.Treasury.StartThunk | server/src/utils/sui-settle.ts:126-141 | Starting a task runs its thunk, whose enqueues pump again inside the pump, and accounts for every task they start |
| TreasuryQueue.Treasury.EnqueueTreasury | server/src/utils/sui-settle.ts:143-158 | Enqueueing, also from inside a thunk that is starting, follows the machine from the new task to the end of its pump |
| TreasuryQueue.Treasury.ReleaseSlot | server/src/utils/sui-settle.ts:131-139 | Releasing frees one slot, counts one completion and follows the machine to the end of the pump |
| TreasuryQueue.Treasury.SettleTask | server/src/utils/sui-settle.ts:131-135 | A settling task records exactly its own outcome and nothing else |
| TreasuryQueue.WithRetry | server/src/utils/sui-settle.ts:57-80 | The first success or the last failure is returned after at most one attempt more than there are delays, sleeping exactly the delays between attempts |
| Arena.ActKeepsSound | contracts/sources/arena.move:347-880 | Every entry function keeps escrow held as a function of status (one stake, two, two, zero) and pays out exactly what the escrow loses |
| Arena.DefensiveChecksAreDead | contracts/sources/arena.move:924-934 | In sound states the slot-taken and no-opponent aborts never happen, and only the fee product can overflow |
| Arena.SucceedsExactly | contracts/sources/arena.move:347-880 | Each call goes through exactly for those who may make it, in the status and from the time on it takes, and leads to its one status: creator, challenger, fighter, treasury, or anyone after the deadline |
| Arena.AbortsExactly | contracts/sources/arena.move:347-880 | A call that is not permitted aborts with the code of the first rule that fails |
| Arena.CreatesExactly | contracts/sources/arena.move:294-338 | A wager is created exactly by the owner of a character that is not locked, without an open wager, with a stake |
| Arena.WritesExactly | contracts/sources/arena.move:347-880 | Terms never change, and challenger, opponent and times are written exactly by the call that decides them |
| Arena.SettleExactly | contracts/sources/arena.move:536-580 | Settlement goes through if and only if the treasury names a fighter of an ACTIVE wager whose fee product fits 64 bits; 5% rounded down goes to the treasury and the rest to the winner |
| Arena.OnlySettlementMovesMoney | contracts/sources/arena.move:347-880 | Apart from settlement, each account's stake in a wager plus what it is paid is unchanged: money only returns to whoever staked it, in full |
| Arena.ExpirySubsumesReclaim | contracts/sources/arena.move:758-880 | Wherever the participants' reclaim succeeds, the public expiry does too, with the same effect |
| Arena.WagerMatch.constructor | contracts/sources/arena.move:294-338 | A created wager is WAITING and holds the stake |
| Arena.WagerMatch.RequestAcceptWager | contracts/sources/arena.move:347-400 | Performs the specified effect or aborts with the specified code, leaving the wager untouched |
| Arena.WagerMatch.ApproveChallenger | contracts/sources/arena.move:406-436 | Same, merging the challenger's stake |
| Arena.WagerMatch.DeclineChallenger | contracts/sources/arena.move:441-467 | Same, returning the challenger's stake |
| Arena.WagerMatch.WithdrawChallenge | contracts/sources/arena.move:473-498 | Same, for the challenger |
| Arena.WagerMatch.CancelChallengeIfExpired | contracts/sources/arena.move:504-530 | Same, for anyone after the timeout |
| Arena.WagerMatch.SettleWager | contracts/sources/arena.move:536-580 | Same, and the creator's registry entry goes exactly on success |
| Arena.WagerMatch.SettleWagerTie | contracts/sources/arena.move:584-620 | Same, refunding both stakes |
| Arena.WagerMatch.CancelWager | contracts/sources/arena.move:626-656 | Same, refunding the creator |
| Arena.WagerMatch.AdminCancelWager | contracts/sources/arena.move:663-744 | Same, in each of the three live states |
| Arena.WagerMatch.CancelWagerIfExpired | contracts/sources/arena.move:758-820 | Same, for anyone after the expiry |
| Arena.WagerMatch.ReclaimStalledWager | contracts/sources/arena.move:830-880 | Same, for either participant |
| ArenaWorld.RunKeepsGood | contracts/sources/arena.move:294-880 | After every run of calls by anyone, every wager obeys the escrow rule and the registry lists exactly the creators of live wagers |
| ArenaWorld.OneOpenWagerPerCreator | contracts/sources/arena.move:138-146 | Two live wagers never share a creator |
| ArenaWorld.RunConserves | contracts/sources/arena.move:294-880 | Accounts, treasury and escrows add up to the same amount after every run |
| ArenaWorld.ChangesExactly | contracts/sources/arena.move:347-880 | Over every run a wager changes exactly by a permitted call on it with the deposit it takes, and goes where that call leads |
| ArenaWorld.AppearsExactly | contracts/sources/arena.move:294-338 | A wager comes into being exactly when a wallet that may creates it, under the next number |
| ArenaWorld.StakesAlwaysFit | contracts/sources/arena.move:406-436 | While all the money fits 64 bits, no escrow can overflow |
| ArenaWorld.SettledForever | contracts/sources/arena.move:536-880 | A settled wager never changes again in any run |
| ArenaWorld.OpenTermsAreTheCreations | contracts/sources/arena.move:294-400 | In every run, whoever may challenge a waiting wager and when anyone may expire it is fixed by its creation, however many challenges came and went: another wallet without an open wager, its own character within one level of the creator's then, the same stake; ten minutes from then |
| ArenaWorld.ExitAlwaysWorks | contracts/sources/arena.move:441-880 | From every reachable state, whoever has a stake can get all of it back by calls of their own and waiting, without the treasury: at once while the wager is open, and at the latest ten minutes after its approval |
| ArenaWorld.OthersTakeNothing | contracts/sources/arena.move:294-880 | In every run of calls by others that does not settle the wager, a wallet's account and stake together never shrink |
| ArenaWorld.OneCallAfterTheDeadline | contracts/sources/arena.move:758-820 | However others interleave, once ten minutes have passed since the approval of an unsettled wager, one call by a staker leaves them with at least all they had and nothing in the wager |
| ArenaWorld.ChallengerMayStillCreate | contracts/sources/arena.move:294-338 | A run in which one wallet has stakes in two live wagers |
| Matchmaking.MatchmakingQueue.AddToQueue | server/src/game/matchmaking.ts:29-39 | A wallet is added at most once, and the pass that follows matches and removes exactly the matched |
| Matchmaking.MatchmakingQueue.RemoveFromQueue | server/src/game/matchmaking.ts:41-45 | Removes exactly the wallet's entry and keeps the others' places |
| Matchmaking.MatchmakingQueue.TryMatchPlayers | server/src/game/matchmaking.ts:59-97 | Nobody is matched twice, pairs are compatible and first come first served, callbacks come by the type that appeared first and then by first member, the rest keep their places, and no two of the rest could be matched |
| Matchmaking.NoneLeftInAnyGroup | server/src/game/matchmaking.ts:59-97 | Matching each fight type of the queue by itself leaves no compatible pair in the whole queue |
| Matchmaking.MatchesExactly | server/src/game/matchmaking.ts:99-125 | Friendly pairs match always, wager fights for the same amount only, and all but friendly ones within 200 rating points, and 50 more for every ten seconds the longer wait has lasted |
| AcceptGate.RejectsExactly | server/src/ws/wager-accept-gate.ts:97-180 | Each reason for turning an accept away comes exactly in its case, and a rollback names exactly the caller's other wager |
| AcceptGate.BusyExactly | server/src/ws/busy-state.ts:40-71 | A busy player is told the first that holds of a fight, an open wager and the queue |
| Isolation.ClientGateIsServerGate | server/src/ws/busy-state.ts:48-71 | A client whose picture is current lets its player in exactly when the wallet is in no queue, wager or fight and no accept is being signed, and the server then agrees |
| Isolation.StepIsolation | server/src/ws/handler.ts:957-1060 | A step breaks "no queued owner, no owner of two" if and only if it writes back or adopts a wager whose creator is queued or owns another |
| Isolation.QueueNeverMeetsLobby | server/src/ws/handler.ts:1555-2100 | In every interleaving whose ungated listings are of idle creators, the queue is disjoint from the lobby's owners and each owns one wager |
| Isolation.StepQueueAgainstFights | server/src/ws/handler.ts:2036-2070 | A step makes a wallet both queued and fighting if and only if a fight is created for someone queued whom the clean-up does not drop |
| Isolation.QueueApartIff | server/src/ws/handler.ts:957-1060 | Over any interleaving, the queue is apart from owners and fighters and each owner lists one wager in every state of the run if and only if no event of it lists a busy creator or starts the fight of someone queued |
| Isolation.RollbackUnwindsCaller | server/src/ws/handler.ts:1927-1967 | After a rollback the caller is queued or listed exactly if it became so after the snapshot; otherwise nothing of it is left |
| Isolation.LiveDecisionLeavesLobby | server/src/ws/wager-accept-gate.ts:97-180 | Deciding a listed wager that is live on chain takes it out of the lobby unless its free creator approves a challenger not on record; a fight follows exactly when the caller was free and the pair is known |
| Isolation.FightIsTheStakersExactly | server/src/ws/handler.ts:1969-2070 | An accepted wager leaves the lobby, and its fight is between its creator and the wallet that staked second exactly when that wallet is the caller, or the creator calls and the snapshot records it |
| Isolation.GoneOnceLaunched | server/src/ws/handler.ts:2036-2070 | When its fight is created, an accepted wager is gone exactly if no handshake still holds its entry and nobody but the fighters has listed its id since |
| Isolation.NoSecondFight | server/src/ws/handler.ts:1770-1819 | Once a wager is gone, no run of later accepts starts a fight for it again |
| IsolationEffects.QueuedExactly | server/src/ws/handler.ts:957-1060 | Exactly which events put a wallet into the queue or take it out |
| IsolationEffects.FightsExactly | server/src/ws/handler.ts:2036-2070 | Exactly which events start and end a wallet's fight |
| IsolationEffects.ListedExactly | server/src/ws/handler.ts:1555-2100 | Exactly what the lobby lists under an id after each event: openings, cancellations, decisions, handshakes and adoptions |
| IsolationEffects.RememberedExactly | server/src/ws/handler.ts:1880-2070 | What is remembered of an accept: what its arrival saw, then the pair its fight is for, then nothing |
| IsolationEffects.StartingExactly | server/src/index.ts:513-534 | Which pairs have a fight on its way, and until when |
| IsolationEffects.WaitingExactly | server/src/ws/handler.ts:1653-1720 | Which handshakes wait for the chain, with which entry |
| IsolationRuns.StaleHandshakeBreaksIsolation | server/src/ws/handler.ts:1653-1720 | From an empty server, a run in which a late handshake lists a cancelled wager of a queued player |
| IsolationRuns.LateAdoptionBreaksIsolation | server/src/ws/handler.ts:2170-2178 | A run in which an adoption lists a wager of a queued player |
| IsolationRuns.RequeueBeforeStartClashes | server/src/index.ts:513-534 | A run in which a matched player queues again before the fight exists |
| IsolationRuns.QueuedFriendClashes | server/src/ws/handler.ts:131-158 | A run in which a queued player accepts a friendly challenge and fights while queued |
| IsolationRuns.QueuedChallengerClashes | server/src/ws/handler.ts:2061-2070 | A run in which an approved challenger fights while queued |
| IsolationRuns.ThirdWalletGetsTheFight | server/src/ws/wager-accept-gate.ts:206-231 | A run in which a wallet that staked nothing gets the fight of a live wager |
| IsolationRuns.LateHandshakeStartsSecondFight | server/src/ws/handler.ts:1653-1720 | A run in which a handshake written back after the fight has started leads to a second fight |
| BootRecovery.WagerLobby.RehydrateLobbyFromChain | server/src/data/lobby-rehydration.ts:196-320 | The loop performs the specified pass over the registry, and a failed registry read changes nothing and counts one error |
| BootRecovery.WagerLobby.AdoptWagerIntoLobby | server/src/ws/handler.ts:2170-2178 | An entry is inserted exactly when its id is not listed |
| BootRecovery.LobbyGainsExactlyTheOpen | server/src/data/lobby-rehydration.ts:196-320 | For any registry and any read failures, the lobby gains exactly the WAITING and PENDING_APPROVAL wagers read and not yet there, each built from its own read |
| BootRecovery.RebuiltCardSays | server/src/data/lobby-rehydration.ts:125-190 | Each card the pass adds says what was read of its wager, amount, level and challenger included, and of the creator its registry row names, or placeholders |
| BootRecovery.PlaceholderShows | server/src/data/lobby-rehydration.ts:116-118 | A placeholder name shows the first six and the last four characters of the wallet around an ellipsis |
| BootRecovery.EveryEntryCountedOnce | server/src/data/lobby-rehydration.ts:196-320 | adopted + rejected + active + settled + errors is the number of entries |
| BootRecovery.CountersAre | server/src/data/lobby-rehydration.ts:196-320 | Each counter counts its own: cards gained, wagers read as active, as settled, and reads that failed or said nothing known |
| BootRecovery.RefusedExactlyWhenPresent | server/src/data/lobby-rehydration.ts:300-318 | The four counters reach the number of entries exactly when no open wager was listed twice or already present |
| BootRecovery.EntriesAreIndependent | server/src/data/lobby-rehydration.ts:235-318 | Reading one wager differently changes no other wager's card |
| BootRecovery.RepeatIsIdle | server/src/data/lobby-rehydration.ts:196-320 | A second pass over the same facts adopts nothing |
| BootRecovery.RebuiltChallengeCanBeApproved | server/src/data/lobby-rehydration.ts:125-190 | A rebuilt card awaiting approval leads the accept handler to the chain's challenger |
| BootRecovery.OrphanSweeper.SweepOne | server/src/data/orphan-wager-recovery.ts:114-185 | One row's reconciliation is the specified step, thrown errors included |
| BootRecovery.OrphanSweeper.SweepOrphanActiveWagers | server/src/data/orphan-wager-recovery.ts:72-106 | The loop performs the steps row by row, counting what was thrown |
| BootRecovery.SweepPointwise | server/src/data/orphan-wager-recovery.ts:72-185 | What becomes of a wager and its row depends on that wager alone |
| BootRecovery.SweepLeaves | server/src/data/orphan-wager-recovery.ts:72-185 | The sweep settles a wager exactly if it was live, readable and cancelled, and drops its row exactly if nothing was left to do and the delete went through |
| BootRecovery.SweepCounts | server/src/data/orphan-wager-recovery.ts:72-185 | cancelled + settled + errors is the rows scanned, less dropped WAITING rows, plus undeletable settled ones |
| BootRecovery.SweepCountersAre | server/src/data/orphan-wager-recovery.ts:72-185 | Each counter counts its own: wagers cancelled for good, found settled, and rows with something failed |
| BootRecovery.UnownedExactly | server/src/index.ts:623-647 | With both passes interleaved in any way, a live registered wager ends up unowned exactly if it is ACTIVE without a stale row, or open, unread and without a kept row |
| BootRecovery.StaleCardExactly | server/src/data/orphan-wager-recovery.ts:150-170 | The lobby shows a settled wager exactly when the sweep cancelled a pending challenge after the lobby pass had read it |
| FightRequests.RunKeepsLimits | server/src/data/fight-requests.ts:122-333 | After any run each sender has at most five pending requests, at most one per target, and answers are never later than the deadline |
| FightRequests.TakenExactly | server/src/data/fight-requests.ts:118-165 | A request is taken exactly if it is well formed, between two addresses, a wager from 0.1 SUI on, with fewer than five of the sender's waiting and none of them for the same target |
| FightRequests.RefusedBecause | server/src/data/fight-requests.ts:118-165 | Each reason for a refusal is given exactly when it is the first that applies |
| FightRequests.TakenIsKept | server/src/data/fight-requests.ts:253-285 | A taken request is kept as asked, for ninety seconds, and no other request changes |
| FightRequests.AnswerFailsBecause | server/src/data/fight-requests.ts:177-205 | Each reason for a failed answer is given exactly in its case |
| FightRequests.ResolvedForever | server/src/data/fight-requests.ts:177-205 | A request that is no longer pending never changes |
| FightRequests.TermsNeverChange | server/src/data/fight-requests.ts:290-308 | Only status and resolution time of a request ever change |
| FightRequests.EveryOutcomeWasDecided | server/src/data/fight-requests.ts:177-205 | Over any run, a request that ends up resolved was resolved by one event with the right to do so, the right party in time or expiry, and carries that event's status and time |
| FightRequests.FightRequestStore.CreateRequest | server/src/data/fight-requests.ts:253-285 | Decided from the indexes exactly as a search of the whole store would decide, keeping both indexes equal to a filter of the store |
| FightRequests.FightRequestStore.TransitionRequest | server/src/data/fight-requests.ts:290-308 | Performs the specified transition and keeps both indexes exact |
| FightRequests.FightRequestStore.SweepExpired | server/src/data/fight-requests.ts:316-333 | Expires exactly the overdue requests, each reported once; afterwards nothing overdue is pending and nothing else has changed |
| FightRequests.FightRequestStore.GetPendingFromSender | server/src/data/fight-requests.ts:224-233 | Returns exactly the sender's pending requests, each once, oldest first |
| FightRequests.FightRequestStore.GetPendingForTarget | server/src/data/fight-requests.ts:213-222 | Returns exactly the requests pending for the target, each once, oldest first |
| DirectMessages.SubscribersAreTheUnsettled | frontend/src/lib/dm-plaintext-pipeline.ts:94-163 | In every reachable state the subscribers and live timers are exactly the unsettled calls, none of them past its budget |
| DirectMessages.EachCallEndsWithItsFirstAnswer | frontend/src/lib/dm-plaintext-pipeline.ts:94-242 | However calls overlap, each ends with the first of its own reply, an error or its timeout, as if it were alone |
| DirectMessages.EveryCallEndsAsItShould | frontend/src/lib/dm-plaintext-pipeline.ts:94-242 | From its start on every call ends as it should: at once if it cannot be sent, else with its first answer |
| DirectMessages.RepliesExactly | frontend/src/lib/dm-plaintext-pipeline.ts:102-213 | What answers a call: its own echo, a page for its peer in any case of the address, or an error with a text; nothing else |
| DirectMessages.TimesOutExactly | frontend/src/lib/dm-plaintext-pipeline.ts:98-144 | A call times out exactly when its budget has passed since it was made |
| DirectMessages.OutcomesNeverChange | frontend/src/lib/dm-plaintext-pipeline.ts:131-137 | A call settles at most once |
| DirectMessages.ConfirmedByOwnEcho | frontend/src/lib/dm-plaintext-pipeline.ts:102-115 | A send is confirmed only by an echo with its own client id, and with that echo's message |
| DirectMessages.EchoSettlesOneCall | frontend/src/lib/dm-plaintext-pipeline.ts:102-115 | With distinct client ids an echo settles exactly the call that sent it |
| DirectMessages.ErrorFailsEveryCallInFlight | frontend/src/lib/dm-plaintext-pipeline.ts:116-129 | An error frame rejects every call in flight and nothing else |
| DirectMessages.ErrorForAnotherSend | frontend/src/lib/dm-plaintext-pipeline.ts:116-129 | A run in which a confirmed message is reported as rejected |
| DirectMessages.DmClient.Emit | frontend/src/lib/dm-plaintext-pipeline.ts:94-163 | Showing a frame to every subscriber, in any order, settles exactly those it answers |
| DirectMessages.DmClient.RunCall | frontend/src/lib/dm-plaintext-pipeline.ts:98-163 | A call subscribes, arms its timeout and sends, or settles at once when sending fails |
| Leaderboard.CompareTransitive | frontend/src/lib/hall-of-fame-sort.ts:76-91 | The comparator is transitive in every column and direction, win rates compared as exact ratios |
| Leaderboard.CompareAntisymmetric | frontend/src/lib/hall-of-fame-sort.ts:76-91 | Swapping the arguments flips the sign, and ties happen only within one wallet |
| Leaderboard.ComesBefore | frontend/src/lib/hall-of-fame-sort.ts:50-91 | One entry precedes another exactly by column value in the chosen direction, then higher rating, then dictionary order of wallets, with win rate as the ratio wins / decided fights |
| Leaderboard.SortIsSortedPermutation | frontend/src/lib/hall-of-fame-sort.ts:94-101 | Sorting gives a sorted permutation |
| Leaderboard.SortIgnoresInputOrder | frontend/src/lib/hall-of-fame-sort.ts:94-101 | With one entry per wallet the sorted order is unique: independent of input order and of the sorting algorithm |
| Leaderboard.PagesGrow | frontend/src/lib/hall-of-fame-display.ts:35-50 | Successive pages are growing prefixes, a full page each while there is more, until everything is shown after at most as many pages as entries, and more is offered exactly while something is hidden |
| Leaderboard.PageShows | frontend/src/lib/hall-of-fame-display.ts:35-50 | A page shows as many times the page size as its number, twenty unless told otherwise, or everything; before the first page is the first |
| EventCodec.AddrBytes | scripts/qa-marketplace.ts:69-83 | The loop writes the 32 bytes of the padded id |
| EventCodec.U64Bytes | scripts/qa-marketplace.ts:85-93 | The loop writes the low eight bytes, least significant first |
| EventCodec.ReadAddress | server/src/data/marketplace.ts:584-593 | The loop reads 32 bytes as lower-case hex, or reports the underrun |
| EventCodec.ReadU64LE | server/src/data/marketplace.ts:595-604 | The loop reads eight bytes little-endian, or reports the underrun |
| EventCodec.Decode | server/src/data/marketplace.ts:606-638 | Each event's fields are read in order, and the first that does not fit is the error |
| EventCodec.UnderrunIsTheFirst | server/src/data/marketplace.ts:606-638 | A field is reported as not fitting exactly when the bytes before it are there and its own are not |
| EventCodec.HexDigitsAre | scripts/qa-marketplace.ts:69-83 | A character is a hex digit with its value exactly as listed |
| EventCodec.RoundTrip | server/src/data/marketplace.ts:606-638 | Encoding then decoding any of the four events gives it back with ids padded and lower-cased and amounts modulo 2^64; sizes are 64, 104, 96 and 112 |
| EventCodec.NormalRoundTrip | scripts/qa-marketplace.ts:110-168 | Events with full lower-case ids and 64-bit amounts come back unchanged |
| EventCodec.DecodeThenEncode | server/src/data/marketplace.ts:606-638 | Decoding fails exactly on too few bytes, and re-encoding gives back the bytes it read |
| EventCodec.HexRoundTrip | server/src/data/marketplace.ts:584-593 | Hex to bytes to hex is the identity up to case |
| MistText.SuiToMistIsNearest | scripts/mint-lv6-8-catalog.ts:202-207 | The digit-by-digit conversion is rounding to the nearest MIST |
| MistText.RoundsDownExactly | scripts/mint-lv6-8-catalog.ts:201-207 | It rounds down exactly when less than half a MIST is left over |
| MistText.SuiToMistUndoesDivision | scripts/mint-lv6-8-catalog.ts:202-212 | Converting a number of MIST to SUI and back is the identity |
| MistText.PrintedSpellsAmount | scripts/mint-lv6-8-catalog.ts:202-212 | For every amount the printed text is a numeral with at most nine decimals that spells the amount, and converting that many SUI back gives it |
| MistText.PrintedIsCanonical | scripts/mint-lv6-8-catalog.ts:209-212 | The printed form has at most nine decimals and no superfluous zero or point |
| MistText.CanonicalIsPrinted | scripts/mint-lv6-8-catalog.ts:209-212 | Every amount has exactly one canonical text, the printed one |
| MistText.ReadsDecimals | frontend/src/lib/wager-input.ts:39-82 | Any digits with up to nine decimals, an empty part and surrounding white space allowed, are read as the amount they spell |
| MistText.AcceptsOnlyDecimals | frontend/src/lib/wager-input.ts:39-82 | Only such texts are accepted, and only from 0.1 SUI on |
| MistText.AnswersExactly | frontend/src/lib/wager-input.ts:39-82 | Each answer of the stake field comes exactly in its case |
| MistText.SpacesAre | frontend/src/lib/wager-input.ts:39-82 | The characters trimmed around a number are exactly the listed ones |
| MistText.StakeReadsPrinted | frontend/src/lib/wager-input.ts:39-82 | The stake field accepts a printed amount, with the same value, exactly when it is at least 0.1 SUI |

## Left out

- Chain RPC, wallets, Supabase, sockets and minting: foreign calls. Their results are parameters or nondeterministic events.
- React screens, copy, logging and landing pages; human-readable rejection texts are named constructors.
- The item picker's search, rarity and level display, and the fight's combat rolls, experience, ratings and levels; a resolved turn only ends the fight or not.
- Floating point: amounts, win rates and SUI values are exact; the clock is a natural number that only grows, and the contract's 64-bit timestamp sums do not overflow.
- TreasuryQueue.Treasury.StartThunk: a thunk is how many tasks it enqueues before its first await, given by the task's number; as every task starts once, that covers every run, but what else a thunk does, and one that throws instead of returning a promise, is outside it.
- FightRoom, FightTime: the room is a state machine on values, so that its runs can be quantified over; the classes for the ledger and the timer inside it update in place.
- Isolation.StepIsolation: connections are abstracted away, so a fighter stays a fighter while disconnected, and `createFight` and the handler's continuation after it are one step.
- Isolation.QueueNeverMeetsLobby: the match event may pair any two queued wallets; which pairs the matcher picks is in Matchmaking.
- BootRecovery: paging through the registry's dynamic fields, and the lobby entry's later refresh by a reconnecting client.
- FightRequests: display names, the database copy and the boot restore; `BigInt` parsing of the stake text is abstracted to missing, malformed or an amount.
- FightRequests.FightRequestStore.GetPendingFromSender: requests of the same age come in any order.
- FightRequests.FightRequestStore.GetPendingForTarget: requests of the same age come in any order.
- DirectMessages: payload bodies beyond an id and a text, and progress callbacks.
- Leaderboard.ComesBefore: `localeCompare` is modelled as code-unit order, which it is for lower-case hex wallets.
- Play: the server's refresh of the recorded loadout after a reconnect, and items locked in a kiosk, which the picker never offers.
- EventCodec: event kinds are known to the caller; malformed hex digits and ids longer than 32 bytes are outside the encoder's contract.
- Finite tables and single-branch predicates (render slots, sort toggles, rank colours, royalty floor): easy members.
