# Verified model of the bot's accounting, observation and command protocols

This project models the parts of the bot in which state outlives one call and several things happen at
once, and proves what holds over every run of them:

- the KBO credit ledger: daily claims, bets, settlements and their corrections, administrator
  adjustments and enrolments over one account row, one ledger and one table of operation ids
  (`KboMoney`, `KboTables`, `KboDecisions`, `KboStore`, `KboRuns`, `KboConservation`, `KboHistory`,
  `KboOnce`, `KboLimits`, `KboWitness`), what each call answers and writes told by its input and the rows
  it finds (`KboCalls`), and the same calls split at their row locks and run
  concurrently (`KboInterleaving`, `KboUpToDate`, `KboSerial`);
- the game observation pipeline: voice events, disconnects and slow reconciliations, polls, the
  observation and incident tables, notifications and corrections (`Streams`, `Incidents`,
  `IncidentCalls`, `IncidentRuns`, `Scheduler`, `ObservationRuns`, `ObservationSafety`);
- the Discord gateway runtime between its awaits (`Gateway`);
- the complete-conversation collector and its chunk manifest (`Conversation`);
- the alert debouncer of the monitoring job (`Monitoring`, `MonitoringRuns`) and the checks behind it
  (`MonitoringChecks`);
- the administrator command protocol under loss, delay and repetition (`AdminTables`, `AdminProtocol`,
  `AdminCalls`, `AdminSafety`), and what its answers let a client conclude (`AdminAnswers`);
- the round-robin refresh of linked identities (`IdentityRefresh`).

`Options` and `Members` hold the small types the others share. `dafny verify dfyconfig.toml` checks all
of it.

## How it is built

An object whose methods change its fields is a class here, and each of its methods is proved to do
exactly what a function on values says: `KboStore.CreditStore`, `Streams.DiscordStreamObserver`,
`Scheduler.GameObservationScheduler`, `Incidents.IncidentStore`, `Gateway.GatewayRuntime`,
`AdminTables.AdminStore`, `IdentityRefresh.RefreshScheduler`. An asynchronous method is one class
method per stretch between two awaits. The run modules then let any number of these steps, outside
changes and failures happen in any order, and state what every such run keeps. The main results relate
the implementation's own devices to something told without them: balances to sums over claims, stakes
and current returns; a lock-split interleaving to a sequence of atomic calls; a generation counter to
"nothing else counted since"; a candidate counter to the trailing run of equal observations; a cursor
to the set of links looked at. What single steps decide is told once more by their inputs and the rows
they find, with every number written out (`KboCalls`, `IncidentCalls`, `MonitoringChecks`, `AdminCalls`).

Times and amounts are unbounded integers; the 64-bit columns and the safe-integer checks of the source
are written out where they decide something. A thrown error is an outcome, not a precondition.

## What does not hold without a condition

- A balance and a debt can coexist. They come to coexist exactly when credit is moved past a debt
  (`KboConservation.MixedExactlyByBypass`), which an accepted call does exactly if it is the first
  settlement of a bet on a game that was called off, or a positive adjustment, and the account is in debt
  (`KboConservation.BypassesExactly`).
- The stakes of a day can exceed 50,000. They do exactly when a void bet is corrected to one that counts
  and the day has no room left for it (`KboLimits.CapLostExactlyByRevival`).
  `KboWitness.UnconditionalRulesFail` gives one reachable run that does both.
- The retry-after floor of a rate limit does not bind a reconnect sleep that was begun before it. It
  holds exactly when no such sleep is due earlier (`Gateway.RetryFloorHolds`,
  `Gateway.RetryFloorIsOverrun`).
- A status answer "success" does not always mean that a change was committed. It does if and only if the
  request that claimed the operation id carries a mutating command (`AdminAnswers.StatusIsRightExactly`);
  it is enough that only mutating commands were sent under the id (`AdminAnswers.StatusTellsCommit`).
  While a list or status request is under way under an unclaimed id, any mutating command sent under that
  id may come to be answered with success without a commit (`AdminAnswers.ReadUnderWayHidesLoss`).
- A request answered as expired may have been carried out by another delivery. If no other delivery was
  made under its id before the refusal is recorded, nothing is ever committed under it
  (`AdminAnswers.SoleRefusalMeansUncommitted`); if another delivery of a mutating command that its guards
  let through is unfinished and the id unclaimed, there is a continuation in which that one commits and
  this one is answered with the refusal (`AdminAnswers.OtherDeliveryMayCommit`). In either case the operation is settled once the
  refusal is recorded (`AdminAnswers.RecordedRefusalSettles`).
- The identity refresh does not look at every link while some listed link's update throws, unless that is
  the only link. With fixed links and fixed throwing updates, enough ticks look at exactly the links from
  the cursor to the first throwing one ahead of it: those behind that one starve, and so do those the
  cursor has already passed, because a tick that throws keeps the cursor. With no throwing update ahead,
  they look at the links ahead and, from the start, at those up to the first that throws
  (`IdentityRefresh.VisitedExactly`). Every link is looked at from every cursor if and only if no listed
  link's update throws or there is at most one link (`IdentityRefresh.CoverageExactly`).

## Model

| member | source | states |
|---|---|---|
| `KboMoney.AllocateSettlementDelta` | src/kbo/bet-settlement.ts:68-90 | both parts of a split add up to the delta, neither column goes negative, and exactly the malformed inputs are refused |
| `KboMoney.SettlementSplitIsForced` | src/kbo/bet-settlement.ts:68-90 | the split of a payout or correction is the only one that serves debt before balance and empties the balance before making debt |
| `KboMoney.AllocateDailyCredit` | src/kbo/daily-credit-claim.ts:64-71 | the daily credit serves debt first |
| `KboMoney.CalculateSettlement` | src/persistence/postgres-kbo-settlement-store.ts:204-235 | a bet is void exactly if its game was called off, stays open exactly if the game is neither called off nor final with both scores, and otherwise returns stake times the multiplier of its result |
| `KboMoney.PayoutMeansPrediction` | src/kbo/bet-return.ts:9-54 | on every final score a valid bet is lost, an outcome hit or a score hit exactly as its prediction says, and never fails |
| `KboMoney.EvaluatePlacement` | src/kbo/bet-placement.ts:90-105 | a placement is accepted if and only if every rule of the policy holds, and counts on its KST day |
| `KboStore.CreditStore.Settle` | src/persistence/postgres-kbo-settlement-store.ts:54-166 | the statements write and report exactly what the settlement decision says, on every path |
| `KboStore.CreditStore.CommitSettlement` | src/persistence/postgres-kbo-settlement-store.ts:112-159 | claim, entry, settlement and bet are written together or, when a key is taken, not at all |
| `KboStore.CreditStore.CommitDenied` | src/persistence/postgres-kbo-settlement-store.ts:319-328 | a denial spends the operation id once and writes nothing else |
| `KboStore.CreditStore.ClaimOperation` | src/persistence/postgres-kbo-settlement-store.ts:330-347 | an operation id is claimed if and only if nobody had it |
| `KboStore.CreditStore.PostEntry` | src/persistence/postgres-kbo-settlement-store.ts:237-278 | both balances and the version change together with the ledger row that explains them |
| `KboStore.CreditStore.CommitBet` | src/persistence/postgres-kbo-bet-store.ts:101-159 | claim, debit, entry and bet are written together or, when a key is taken, not at all |
| `KboStore.CreditStore.SettleLocked` | src/persistence/postgres-kbo-settlement-store.ts:76-160 | from the locks on, the statements write and report what the decision on the locked rows says |
| `KboStore.CreditStore.CommitPayout` | src/persistence/postgres-kbo-settlement-store.ts:98-159 | the payout is allocated and written as the decision says, or nothing is |
| `KboStore.CreditStore.Place` | src/persistence/postgres-kbo-bet-store.ts:40-167 | the statements write and report exactly what the placement decision says |
| `KboStore.CreditStore.ClaimDaily` | src/persistence/postgres-kbo-daily-credit-claim-store.ts:28-121 | the statements write and report exactly what the claim decision says |
| `KboStore.CreditStore.CommitClaim` | src/persistence/postgres-kbo-daily-credit-claim-store.ts:64-116 | claim, credit, entry and claim row are written together or, when a key is taken, not at all |
| `KboStore.CreditStore.PostAdjustmentRow` | src/persistence/postgres-kbo-admin-credit-store.ts:50-87 | balance, version and ledger row are written, and it fails exactly if a column cannot hold them |
| `KboStore.CreditStore.Adjust` | src/persistence/postgres-kbo-admin-credit-store.ts:18-99 | the statements write and report exactly what the adjustment decision says |
| `KboStore.CreditStore.Enroll` | src/persistence/postgres-kbo-enrollment-store.ts:14-75 | the statements write and report exactly what the enrolment decision says |
| `KboCalls.SettlementPaysTheScore` | src/persistence/postgres-kbo-settlement-store.ts:204-235 | a settlement is of the named bet at the game's present revision; by the game's status and scores it pays the stake back, nothing, twice or three times the stake |
| `KboCalls.SettlementMovesAccount` | src/persistence/postgres-kbo-settlement-store.ts:98-110 | the account moves by what the bet returns more than before: a first void refund to the balance, any other gain to debt first, a loss from the balance first |
| `KboCalls.SettlementWritesRows` | src/persistence/postgres-kbo-settlement-store.ts:118-154 | a settlement writes its own row, the bet's status and current settlement, the entry that explains the move, the operation id, and nothing else |
| `KboCalls.SettlementReports` | src/persistence/postgres-kbo-settlement-store.ts:152-160 | the answer to a settlement that is written is its payout and what it moved |
| `KboCalls.SettleAnswers` | src/persistence/postgres-kbo-settlement-store.ts:63-97 | the first thing wrong with a settlement under a new id decides its denial |
| `KboCalls.SettleFailsExactly` | src/persistence/postgres-kbo-settlement-store.ts:96-162 | with nothing wrong it fails exactly if the return cannot be computed, a key is taken, or a column cannot hold the result |
| `KboCalls.PlacedBetIsTheSlip` | src/persistence/postgres-kbo-bet-store.ts:101-159 | the stored bet is the slip field by field, on the game's market and the KST day of placement, and exactly the stake leaves the balance |
| `KboCalls.DailyStakeMeans` | src/persistence/postgres-kbo-bet-store.ts:58-64 | the stake of a day is the total of the account's bets of the day that are not void |
| `KboCalls.PlaceAnswers` | src/persistence/postgres-kbo-bet-store.ts:40-99 | a placement under a new id is denied for the first rule it breaks and written if it breaks none and no key is taken |
| `KboCalls.ClaimPaysCredit` | src/persistence/postgres-kbo-daily-credit-claim-store.ts:64-113 | a claim credits 50,000, debt first, and records itself for the KST day with the entry that explains it |
| `KboCalls.ClaimAnswers` | src/persistence/postgres-kbo-daily-credit-claim-store.ts:28-62 | a claim under a new id is refused exactly if the member is not enrolled or has claimed on the day |
| `KboCalls.AdjustAnswers` | src/persistence/postgres-kbo-admin-credit-store.ts:18-91 | an adjustment under a new id is refused for the first reason that holds and otherwise moves balance and version by what was asked |
| `KboCalls.EnrollAnswers` | src/persistence/postgres-kbo-enrollment-store.ts:14-75 | an enrolment under a new id opens an empty account for a registered member without one, and is refused otherwise |
| `KboCalls.LeaveAnswers` | src/persistence/postgres-kbo-departure-store.ts:34-67 | a departure is refused without an enrolment, fails under an id that is taken, and otherwise ends the enrolment and leaves the account |
| `KboRuns.DecisionIsLegal` | src/persistence/postgres-kbo-settlement-store.ts:54-159 | on sound tables every decision of every call is one the invariants can rely on: explained entries, fresh ids, newer revisions, stakes within bounds |
| `KboRuns.RunKeepsGrounded` | migrations/0017_kbo_settlement_schema.sql:1-30 | over every run rows refer to existing rows, ids are unique, balances and debts are not negative and every row's operation was claimed |
| `KboConservation.Conservation` | src/persistence/postgres-kbo-settlement-store.ts:98-159 | in every reachable state available less debt is 50,000 per claim, less all stakes, plus current returns, plus adjustments |
| `KboConservation.MixedExactlyByBypass` | src/kbo/bet-settlement.ts:68-90 | balance and debt come to coexist exactly by a first void refund or a positive adjustment on an indebted account |
| `KboConservation.BypassesExactly` | src/persistence/postgres-kbo-settlement-store.ts:98-110 | a call moves credit past a debt if and only if it is accepted and, by the tables before it, is the first settlement of a bet on a called-off game or a positive adjustment on an account in debt |
| `KboConservation.BalancesFromNet` | src/kbo/bet-settlement.ts:68-90 | without such a step balance and debt are the positive and negative part of the net worth |
| `KboConservation.OrdinaryBalancesFromNet` | src/kbo/bet-settlement.ts:68-90 | so they are in every run without adjustments and first settlements of bets on called-off games |
| `KboConservation.PathIndependence` | src/persistence/postgres-kbo-settlement-store.ts:100-110 | two runs that end in the same claims, bets, current returns and adjustments end in the same balance and debt, however often settlements were corrected |
| `KboHistory.SettlementChain` | src/persistence/postgres-kbo-settlement-store.ts:88-149 | from a bet's current settlement the superseded ones are all its settlements, once each, in decreasing revision, ending; their deltas sum to the current return; pending and void are read off the chain |
| `KboHistory.LedgerReplay` | src/persistence/postgres-kbo-settlement-store.ts:237-278 | an account's entries lead from zero to its present columns without a gap or a negative prefix, and its version counts them |
| `KboHistory.AdjustmentSeesReadAccount` | src/persistence/postgres-kbo-admin-credit-store.ts:46-87 | an adjustment accepted at the version that was read finds the account and its entries exactly as read |
| `KboOnce.ExactlyOnce` | src/persistence/postgres-kbo-settlement-store.ts:330-347 | an operation id stands for at most one claim, bet, settlement or adjustment over all stores, and one ledger entry |
| `KboOnce.UsedIdWritesNothing` | src/persistence/postgres-kbo-bet-store.ts:209-241 | a call whose id was used by any store writes nothing |
| `KboOnce.SettlementReplay` | src/persistence/postgres-kbo-settlement-store.ts:280-312 | repeating a settled operation at any later time returns the identical result and changes nothing |
| `KboOnce.PlacementReplay` | src/persistence/postgres-kbo-bet-store.ts:48-52 | so does repeating a placement while the enrolment leads to the same account |
| `KboOnce.ClaimReplay` | src/persistence/postgres-kbo-daily-credit-claim-store.ts:41-62 | so does repeating a claim while the enrolment leads to the same account |
| `KboLimits.AtMostOnePendingBet` | src/persistence/postgres-kbo-bet-store.ts:57-99 | no account ever has two pending bets on a game |
| `KboLimits.CapLostExactlyByRevival` | src/kbo/bet-placement.ts:100-104 | a write breaks the daily cap exactly when it revives a void bet past it |
| `KboLimits.DailyCap` | src/kbo/bet-placement.ts:100-104 | in runs without such a revival the non-void stakes of every day stay within 50,000 |
| `KboLimits.PlacementWithinCap` | src/persistence/postgres-kbo-bet-store.ts:74-99 | in every run an accepted placement leaves its day within 50,000 |
| `KboWitness.UnconditionalRulesFail` | src/kbo/bet-settlement.ts:68-90 | a reachable state has 100,000 staked on a day, and another has a balance beside a debt |
| `KboSerial.CommitIsAtomic` | src/persistence/postgres-kbo-settlement-store.ts:63-159 | a transaction that commits writes and reports what the whole call run at that instant would: no update is lost |
| `KboSerial.CommitSparesOthers` | src/persistence/postgres-kbo-settlement-store.ts:169-202 | a commit leaves standing whatever the other transactions have read under their locks |
| `KboSerial.NextIsAtomic` | src/persistence/postgres-kbo-bet-store.ts:40-159 | every step of the interleaving leaves the tables alone or performs one atomic operation; the commit of a call is that call, with its outcome |
| `KboSerial.Serializable` | src/persistence/postgres-kbo-bet-store.ts:40-159 | any interleaving of any number of calls, crashes and game updates leaves the tables exactly as the committed calls and the outside changes do one at a time, in commit order |
| `KboSerial.EndIsAtomic` | src/persistence/postgres-kbo-bet-store.ts:47-166 | a step that ends a call with anything but a failure, a replayed result or a late duplicate included, reports and writes what the atomic operation at that instant does |
| `KboSerial.OutcomesAreAtomic` | src/persistence/postgres-kbo-bet-store.ts:40-167 | every call of an interleaving that is over without failing reported the outcome of an atomic operation at one instant of the run |
| `KboSerial.SettledOnceInRuns` | src/persistence/postgres-kbo-settlement-store.ts:88-96 | no two settlements share a bet and a game revision, or an operation |
| `KboSerial.InterleavedSafety` | src/persistence/postgres-kbo-settlement-store.ts:54-159 | in every interleaving the accounting equation, the ledger chain, single settlement, single operation, linked chains and one pending bet hold |
| `KboSerial.DenialWasTrue` | src/persistence/postgres-kbo-bet-store.ts:57-99 | a denial was true of the tables at the instant it was decided, for the account locked or, with none locked, the one the enrolment leads to |
| `Streams.DiscordStreamObserver.ObserveMember` | src/game/discord-stream-observer.ts:20-41 | one member's observation is replaced under the next generation, all others stay |
| `Streams.DiscordStreamObserver.ReconcileMembers` | src/game/discord-stream-observer.ts:43-68 | the loop takes exactly the replies whose baseline still holds when they are reached |
| `Streams.DiscordStreamObserver.DisconnectAll` | src/game/discord-stream-observer.ts:70-80 | the walk over the map marks every known member |
| `Streams.DiscordStreamObserver.ReadAt` | src/game/discord-stream-observer.ts:86-101 | a state held for the freshness bound or longer reads as unknown |
| `Streams.DisconnectTouchesAll` | src/game/discord-stream-observer.ts:70-80 | a disconnect makes every known member unknown under a newer generation, and no other member known |
| `Streams.ObservedIsHeard` | src/game/discord-stream-observer.ts:20-41 | after a voice event its member is active exactly if streaming was said, inactive exactly if not streaming was said, unknown otherwise, under a newer generation, and no other member moved |
| `Streams.ReconcileMember` | src/game/discord-stream-observer.ts:43-68 | a reply changes a member if and only if the baseline still holds for it, by its first occurrence alone, to exactly what it said, under a newer generation |
| `Incidents.CompareGameEvidence` | src/game/observation-state.ts:26-49 | a violation is exactly an active game without a stream past both allowances; unknown evidence is never one |
| `Incidents.IncidentStore.Record` | src/persistence/postgres-game-observation-store.ts:12-147 | the transaction writes game, evidence and incident as specified or is undone, with the result the source returns |
| `Incidents.IncidentStore.InsertEvidence` | src/persistence/postgres-game-observation-store.ts:150-175 | an evidence row is inserted if and only if its key is new |
| `Incidents.IncidentStore.Mutate` | src/persistence/feature-store.ts:116-218 | a correction or its refusal writes exactly what the source writes, for both callers |
| `IncidentCalls.RecordAnswers` | src/persistence/postgres-game-observation-store.ts:18-140 | exactly when an observation is stale, a duplicate, refused by a constraint, recorded, or reported as a violation, by the rows it finds |
| `IncidentCalls.RecordWritesRows` | src/persistence/postgres-game-observation-store.ts:26-140 | a recorded observation leaves its game, one evidence row for each source and the incident it leads to; any other leaves nothing |
| `IncidentCalls.WellFormedMeans` | src/game/game-observation-executor.ts:84-117 | an observation is well formed exactly if no text is blank, the numbers are safe integers in range and nothing it tells is from after its instant |
| `IncidentCalls.ExecutesAs` | src/game/game-observation-executor.ts:53-82 | only well-formed observations of queue 420 are passed on, compared under five minutes of grace and two of interruption |
| `IncidentCalls.CorrectionAnswers` | src/persistence/feature-store.ts:116-218 | exactly when a correction is carried out, a conflict, not found or a duplicate |
| `IncidentCalls.CorrectionWritesRows` | src/persistence/feature-store.ts:116-218 | a correction carried out moves its incident and leaves one revision; a refused admin command leaves its id and result, any other refusal nothing |
| `IncidentRuns.CountsMatchIncident` | src/persistence/postgres-game-observation-store.ts:72-140 | a violation was reported exactly once if the incident shows one and never otherwise, and an incident has one revision exactly if it is corrected or cancelled |
| `IncidentRuns.ViolationReportedOnce` | src/persistence/postgres-game-observation-store.ts:73-77 | at most one violation report per game and user, and at most one revision per incident |
| `IncidentRuns.ViolationReportedWhen` | src/persistence/postgres-game-observation-store.ts:18-104 | the exact condition, on the rows of any run, under which an observation reports a violation |
| `IncidentRuns.CorrectionSeesReadIncident` | src/persistence/feature-store.ts:136-202 | a correction accepted at the version that was read corrects the incident exactly as read, and leaves one revision from its status then |
| `IncidentRuns.TerminalIsForever` | src/persistence/feature-store.ts:171-182 | nothing changes a corrected or cancelled incident any more |
| `IncidentRuns.StackIsReportedLessOverturned` | src/persistence/feature-store.ts:273-294 | a user's stack is the violations reported less the confirmed incidents overturned |
| `Scheduler.GameObservationScheduler.ObserveVoice` | src/game/observation-scheduler.ts:79-95 | the observation and the interruption time move together |
| `Scheduler.GameObservationScheduler.Disconnected` | src/game/observation-scheduler.ts:97-99 | a disconnect reaches the stream observer and leaves interruptions alone |
| `Scheduler.GameObservationScheduler.StartReconcile` | src/game/observation-scheduler.ts:101-109 | a reconciliation starts if and only if none of the guild is running |
| `Scheduler.GameObservationScheduler.AskVoice` | src/game/observation-scheduler.ts:114-133 | the users asked for are those of the guild, each once, with their present generations and states |
| `Scheduler.GameObservationScheduler.VoiceReplied` | src/game/observation-scheduler.ts:139-158 | a reconciliation reply moves observations, interruptions and the reconciliation time as specified |
| `Scheduler.GameObservationScheduler.StartPoll` | src/game/observation-scheduler.ts:178-182 | a poll starts under a new generation if and only if none is running for the link |
| `Scheduler.GameObservationScheduler.RiotAnswered` | src/game/observation-scheduler.ts:194-241 | what the poll does with a Riot reply, down to the observation it hands on |
| `Scheduler.GameObservationScheduler.ResultArrived` | src/game/observation-scheduler.ts:242-253 | a recorded violation owes a notification, and an owed one must be sent before the poll ends |
| `Scheduler.GameObservationScheduler.NotificationSent` | src/game/observation-scheduler.ts:246-255 | a sent notification is owed no more and the poll ends |
| `Scheduler.GameObservationScheduler.EndPoll` | src/game/observation-scheduler.ts:252-256 | an ended game is forgotten when its poll completes, and the link is free again |
| `Scheduler.GameObservationScheduler.PollFailed` | src/game/observation-scheduler.ts:254-256 | a failed poll frees the link and keeps game and debt |
| `Scheduler.RequestedMeans` | src/game/observation-scheduler.ts:114-133 | the users asked for are exactly those of the guild's targets, each once |
| `Scheduler.ReconcileFrees` | src/game/observation-scheduler.ts:101-159 | a reconciliation that ends is dated and frees its guild alone |
| `Scheduler.PollBegins` | src/game/observation-scheduler.ts:178-182 | a poll begins under the generation after its link's last, the first under 1 |
| `Scheduler.PollObserves` | src/game/observation-scheduler.ts:205-240 | a poll's observation holds the target's and game's data, what Riot said, and the user's stream state unless it is as old as the freshness bound |
| `Scheduler.PollDecides` | src/game/observation-scheduler.ts:182-241 | a Riot reply makes the poll give way, end without a game, throw, ignore the queue or store, each exactly when the source does |
| `Scheduler.PollFrees` | src/game/observation-scheduler.ts:252-256 | a poll that is over frees its link and forgets the game exactly if Riot said nothing is played |
| `ObservationRuns.MemberStateIsHistory` | src/game/observation-scheduler.ts:79-159 | in every interleaving a member's state and interruption time are those of a history in which a reply counts only if nothing else counted since its wait began |
| `ObservationRuns.CutMeans` | src/game/observation-scheduler.ts:89-93 | an interruption is on record since an instant if and only if the stream went straight from active to inactive then and was never seen active again |
| `ObservationRuns.LastMarkSays` | src/game/observation-scheduler.ts:79-159 | the last mark of a member is of the event that counted last, with its instant and what it said about streaming |
| `ObservationRuns.GenerationsIncrease` | src/game/discord-stream-observer.ts:36-39 | a member's generation moves exactly when something about it counted, and only upwards |
| `ObservationSafety.NotificationsFollowViolations` | src/game/observation-scheduler.ts:194-251 | an owed link has an active game on record, notifications sent never outnumber violations stored, and the generation check after the Riot reply never fires |
| `ObservationSafety.OwedIsPaidFirst` | src/game/observation-scheduler.ts:242-253 | no poll completes while a notification stays owed, and a link that is owed one completes only by sending it, also after the game ended |
| `ObservationSafety.FailedNotificationStaysOwed` | src/game/observation-scheduler.ts:245-255 | a failed notification keeps the debt and the active game and frees the link for the next poll |
| `ObservationSafety.ViolationStoredOnce` | src/persistence/postgres-game-observation-store.ts:72-140 | over all links and polls one violation is stored for an incident exactly if it shows one |
| `ObservationSafety.PollSeesHistory` | src/game/observation-scheduler.ts:205-240 | the voice evidence of a poll is the last mark's state while fresh and unknown otherwise, with its time and the interruption on record |
| `ObservationSafety.StoresViolationExactlyWhen` | src/game/observation-scheduler.ts:194-241 | a Riot reply makes a poll store a violation exactly when it is a sighting, the names are not blank, the numbers are safe and the last mark is not from the future |
| `ObservationSafety.ConfirmedWasSighted` | src/game/observation-state.ts:26-49 | an incident is confirmed only if some poll saw the game active in an observed queue for five minutes, the last thing that counted about the user saying, not too long ago, that the user does not stream, and no interruption younger than two minutes |
| `Gateway.GatewayRuntime.Start` | src/gateway/gateway-runtime.ts:65-71 | only an idle runtime logs in |
| `Gateway.GatewayRuntime.AcceptSequence` | src/gateway/gateway-runtime.ts:140-146 | a sequence is accepted if and only if it is newer than the last one |
| `Gateway.GatewayRuntime.AcceptHeartbeat` | src/gateway/gateway-runtime.ts:90-92 | an accepted heartbeat moves the heartbeat time and nothing else but the sequence |
| `Gateway.GatewayRuntime.AcceptReady` | src/gateway/gateway-runtime.ts:83-89 | an accepted ready event starts one reconciliation under a new generation |
| `Gateway.GatewayRuntime.ReconcileReply` | src/gateway/gateway-runtime.ts:152-164 | a reply replaces the roles only if its generation is current and the runtime is ready |
| `Gateway.GatewayRuntime.ReconcileFailed` | src/gateway/gateway-runtime.ts:165-170 | a failure of the current reconciliation forgets the roles, one of an older changes nothing |
| `Gateway.GatewayRuntime.AcceptLoss` | src/gateway/gateway-runtime.ts:93-104 | a loss forgets the roles and sleeps for the configured delay or the floor, whichever is longer |
| `Gateway.GatewayRuntime.Stop` | src/gateway/gateway-runtime.ts:125-138 | stop outdates every reconciliation and forgets the roles |
| `Gateway.GatewayRuntime.Destroyed` | src/gateway/gateway-runtime.ts:133-137 | the runtime is stopped whether or not the client could be destroyed |
| `Gateway.GatewayRuntime.ReadCurrentRole` | src/gateway/gateway-runtime.ts:118-123 | a role is read only while connected |
| `Gateway.RolesGrantTiers` | src/gateway/gateway-runtime.ts:156-163 | the role map grants the tier of the last row for the actor |
| `Gateway.RoleReadIsCurrent` | src/gateway/gateway-runtime.ts:73-200 | in every interleaving a role read answers exactly what the reply to the latest ready event's reconciliation grants, if nothing was lost since, stop was not called and the heartbeat is fresh, and nothing otherwise |
| `Gateway.StopIsFinal` | src/gateway/gateway-runtime.ts:125-185 | after stop the runtime stays stopping or stopped, never reconnects and reads no role |
| `Gateway.WakeReconnects` | src/gateway/gateway-runtime.ts:180-184 | a wake-up reconnects exactly when the runtime is reconnecting |
| `Gateway.BackoffFollowsTable` | src/gateway/gateway-runtime.ts:173-180 | the n-th loss without a ready event in between sleeps for the n-th configured delay, the last if there are fewer, and never less than its floor |
| `Gateway.RetryFloorHolds` | src/gateway/gateway-runtime.ts:100-104 | without an earlier sleep the retry floor holds until the next loss |
| `Gateway.RetryFloorIsOverrun` | src/gateway/gateway-runtime.ts:173-185 | with an earlier sleep there is a continuation that reconnects before the floor |
| `Gateway.RetryFloorCanBeOverrun` | src/gateway/gateway-runtime.ts:173-185 | a concrete run reconnects 10 ms into a floor of 250 ms |
| `Conversation.ValueIsDecimal` | src/adapters/discord/conversation-history.ts:53-57 | a digit id stands for its decimal number |
| `Conversation.TextBeforeMeans` | src/adapters/discord/conversation-history.ts:53-57 | a text is before another exactly if it ends or has the smaller character where they part |
| `Conversation.TextOrderIsNumeric` | src/adapters/discord/conversation-history.ts:53-57 | digit ids of one length compare as text as their numbers do |
| `Conversation.OneLengthSuffices` | src/adapters/discord/conversation-history.ts:53-57 | a channel whose ids grow and are of one length within an instant meets the collector's condition |
| `Conversation.ValidatePage` | src/adapters/discord/conversation-history.ts:74-89 | a page is refused exactly if it is oversized, has a malformed id or author, or an id twice |
| `Conversation.ReadPage` | src/adapters/discord/conversation-history.ts:49-65 | a valid page comes newest first, with a cursor exactly when it is full |
| `Conversation.SortRestores` | src/adapters/discord/conversation-history.ts:53-57 | sorting any arrangement of a strictly ordered sequence restores it |
| `Conversation.ReadChannel` | src/adapters/discord/conversation-history.ts:40-71 | a read gives the newest hundred messages before the cursor, whatever order the fetch returned |
| `Conversation.BeforeMeans` | src/adapters/discord/conversation-history.ts:40-48 | the messages before a cursor are those with smaller ids |
| `Conversation.CollectPage` | src/summary/conversation-summary.ts:82-89 | the loop over a page sets exactly the messages in range |
| `Conversation.CollectCompleteConversation` | src/summary/conversation-summary.ts:64-108 | the result holds a message exactly if the channel does and its instant is in range, each once and oldest first, after at most n/100 + 1 reads, and the cursor error is never raised |
| `Conversation.ValidateManifest` | src/summary/openai-conversation-summarizer.ts:111-127 | a manifest is accepted if and only if it tiles the messages with non-empty chunks |
| `Conversation.TilesCoverOnce` | src/summary/openai-conversation-summarizer.ts:111-127 | in an accepted manifest every ordinal lies in exactly one chunk |
| `Conversation.CreateManifest` | src/summary/conversation-summary.ts:110-123 | the manifest tiles the messages in ceil(count / size) chunks, all full but perhaps the last |
| `Monitoring.Observe` | src/operations/monitoring.ts:100-144 | the pushes build exactly the observations of a snapshot, and a stale one observes only its own staleness |
| `Monitoring.ApplyObservations` | src/operations/monitoring.ts:243-312 | the loop moves every observed key as specified and sends exactly the notifications due |
| `MonitoringChecks.StaleInputIsCritical` | src/operations/monitoring.ts:104-112 | input without an instant or two minutes off is critical at once and nothing else is observed |
| `MonitoringChecks.UnitsAreObserved` | src/operations/monitoring.ts:114-133 | with fitting names every unit is observed, critical exactly if it does not run |
| `MonitoringChecks.HealthIsObserved` | src/operations/monitoring.ts:164-172 | unavailable is critical at once, degraded warns the fifth time, and two healthy ones clear either |
| `MonitoringChecks.BackupIsObserved` | src/operations/monitoring.ts:174-193 | a backup marker is critical if missing, from the future or a day old and warns at twenty hours |
| `MonitoringChecks.CertificateIsObserved` | src/operations/monitoring.ts:195-211 | a certificate is critical if unreadable or within fourteen days of expiry and warns within twenty-one |
| `MonitoringChecks.CapacityIsObserved` | src/operations/monitoring.ts:213-228 | capacity is critical with invalid numbers or 4 GiB free or less and warns at four fifths used or 5 GiB free or less |
| `MonitoringChecks.SuppressionIsObserved` | src/operations/monitoring.ts:230-241 | one suppressed interval warns, two are critical, and ten clear ones end it |
| `MonitoringChecks.NothingElseIsObserved` | src/operations/monitoring.ts:104-143 | the number of observations is that of these checks |
| `MonitoringRuns.SeverityIsReached` | src/operations/monitoring.ts:252-286 | the severity held is that of the latest run of observations that was long enough, by `recoverAfter` for ok and `activateAfter` otherwise, and the alert is dated from the run that left ok, exactly while it is not ok |
| `MonitoringRuns.MovesExactlyWhen` | src/operations/monitoring.ts:254-264 | an observation moves an alert to ok exactly when the last `recoverAfter` agree, and to warning or critical exactly when the last `activateAfter` do |
| `MonitoringRuns.StateNamesLatest` | src/operations/monitoring.ts:288-297 | the state names the instant last observed and the latest reason given for the severity it holds |
| `MonitoringRuns.TrailingMeans` | src/operations/monitoring.ts:254-255 | the count of a trailing run is at least n exactly when the last n observations agree |
| `MonitoringRuns.NotificationsAreWellFormed` | src/operations/monitoring.ts:264-307 | a resolution closes a firing of the same onset, an episode keeps its onset, and reminders are at least six hours after the notification before |
| `MonitoringRuns.NotifiesExactlyWhen` | src/operations/monitoring.ts:264-307 | a notification is sent exactly when the severity moves or critical repeats six hours or more after the last one, and names what was observed and since when |
| `MonitoringRuns.ReminderNeverOverdue` | src/operations/monitoring.ts:298-307 | after an observation that agrees with a critical alert less than six hours have passed since the last notification |
| `MonitoringRuns.RunIsPerKey` | src/operations/monitoring.ts:252-312 | over any run the state and notifications of a key are those of its own observations alone |
| `MonitoringRuns.AlertsOverSnapshots` | src/operations/monitoring.ts:100-312 | over any run of snapshots a key is held exactly if it was observed, with the severity and onset of its own history, and its notifications are well formed and end in the state held |
| `MonitoringRuns.SnapshotKeysAreDistinct` | src/operations/monitoring.ts:114-141 | a snapshot never observes a key twice |
| `MonitoringRuns.StaleInputFreezesOthers` | src/operations/monitoring.ts:109-112 | stale input moves no other alert and sends nothing about one |
| `AdminTables.AdminStore.ApproveRequest` | src/persistence/postgres-riot-command-store.ts:381-496 | the transaction claims the id, makes the link and decides the request or refuses, and leaves one result |
| `AdminTables.AdminStore.RejectRequest` | src/persistence/postgres-riot-command-store.ts:498-559 | the transaction claims the id, rejects the request or refuses, and leaves one result |
| `AdminTables.AdminStore.RemoveActiveLink` | src/persistence/postgres-riot-command-store.ts:205-261 | the transaction claims the id, removes the link or refuses, and leaves one result |
| `AdminTables.AdminStore.RecordAdminAudit` | src/persistence/postgres-riot-command-store.ts:561-591 | an outcome is recorded if and only if the id was free |
| `AdminTables.AdminStore.FindResult` | src/persistence/postgres-riot-command-store.ts:593-601 | the recorded result of the id, if there is one |
| `AdminCalls.ApprovalWrites` | src/persistence/postgres-riot-command-store.ts:381-496 | an approval under a new id is refused for the first reason that holds, and otherwise makes the link, primary exactly if the user has no other, and decides the request |
| `AdminCalls.RejectionWrites` | src/persistence/postgres-riot-command-store.ts:498-559 | a rejection under a new id is refused for the first reason that holds and otherwise decides the request |
| `AdminCalls.RemovalWrites` | src/persistence/postgres-riot-command-store.ts:205-261 | a removal under a new id is refused for the first reason that holds and otherwise leaves the link removed and not primary |
| `AdminCalls.TakenIdWritesNothing` | src/persistence/postgres-riot-command-store.ts:561-591 | under an id that is taken nothing is written |
| `AdminCalls.RecordingWrites` | src/persistence/postgres-riot-command-store.ts:561-591 | recording an outcome under a new id leaves the claim and that result alone |
| `AdminCalls.OthersWrite` | src/persistence/postgres-riot-command-store.ts:28-203 | what others may do meanwhile to ids, requests and links, each under the row's next version |
| `AdminCalls.ExpiredIsRefused` | src/ipc/admin-command-application.ts:106-114 | a request is refused as expired from the instant it expires on |
| `AdminCalls.OnlyAdministratorsPass` | src/ipc/admin-command-application.ts:115-130 | only an administrator's request goes on |
| `AdminCalls.ResultOrBegin` | src/ipc/admin-command-application.ts:131-153 | a request whose id has a result is answered with it, any other goes on to what its command needs |
| `AdminCalls.ApprovalIsValidated` | src/ipc/admin-command-application.ts:203-240 | an approval needs a pending request and an account the validator knows on the platform |
| `AdminCalls.StatusIsLookedUp` | src/ipc/admin-command-application.ts:301-322 | a status query answers what is recorded about its target, or unknown |
| `AdminCalls.TransactionAnswersRequest` | src/ipc/admin-command-application.ts:241-299 | the transaction's verdict is the answer, and a taken id is answered with its result or as a duplicate |
| `AdminCalls.RowsAreJudged` | src/ipc/admin-command-application.ts:131-153 | each decision and removal is judged on the row it names at the version it expects |
| `AdminCalls.RulingsAreOutcomes` | src/ipc/admin-command-application.ts:356-430 | what the credit and incident stores rule is the outcome of the command, and a cursor is valid exactly if its request is pending |
| `AdminCalls.RefusalsHaveKinds` | src/ipc/admin-command-application.ts:241-299 | which refusals are conflicts, unavailable or duplicates, every other being a denial |
| `AdminSafety.CommitsAtMostOnce` | src/persistence/postgres-riot-command-store.ts:381-591 | an operation id commits at most one change, exactly if its result is a success of the command that makes it; a claimed admin id has one result; a link request is decided at most once |
| `AdminSafety.ClaimedIsSettled` | src/persistence/postgres-riot-command-store.ts:648-662 | once an id is claimed nothing recorded about it changes |
| `AdminSafety.AnswersAreTruthful` | src/ipc/admin-command-application.ts:106-153 | an answered request has its id claimed, a success names the change committed under it, and a status other than unknown is the recorded result |
| `AdminSafety.UnknownMeansUnrecorded` | src/ipc/admin-command-application.ts:301-322 | a status query finds unknown exactly when nothing is recorded, and then nothing was committed so far |
| `AdminAnswers.ClaimantMeans` | src/persistence/postgres-riot-command-store.ts:561-601 | an id has a result exactly if an admin request claimed it; that request was sent, and the result names its command |
| `AdminAnswers.StatusIsRightExactly` | src/ipc/admin-command-application.ts:450-465 | a status answer success about an id is right if and only if the request that claimed the id carries a mutating command, and any other outcome means nothing was committed |
| `AdminAnswers.StatusTellsCommit` | src/ipc/admin-command-application.ts:450-465 | about an id that only mutating commands carried a status answer is success exactly if the change was committed |
| `AdminAnswers.ReadUnderWayHidesLoss` | src/ipc/admin-command-application.ts:305-311 | from every run with a list or status request under way under an unclaimed id, every mutating command sent under it can come to be answered with success and nothing committed |
| `AdminAnswers.RecordedRefusalSettles` | src/ipc/admin-command-application.ts:108-129 | a recorded refusal leaves the operation as it is for good |
| `AdminAnswers.StatusUnderOwnIdHidesLoss` | src/ipc/admin-command-application.ts:305-311 | a run in which a command is answered with success although nothing was changed |
| `AdminAnswers.SoleRefusalMeansUncommitted` | src/ipc/admin-command-application.ts:106-129 | if a request was delivered once when its refusal is recorded, nothing is committed under its id in any continuation |
| `AdminAnswers.OtherDeliveryMayCommit` | src/ipc/admin-command-application.ts:106-129 | with another unfinished delivery, under the unclaimed id, of a mutating command that its guards let through there is a continuation that commits it although the refusal is answered |
| `AdminAnswers.ExpiredAnswerMayHideCommit` | src/ipc/admin-command-application.ts:108-114 | a run in which a command answered as expired was carried out |
| `AdminSafety.ActivePuuidsUnique` | src/persistence/postgres-riot-command-store.ts:437-472 | no two active links name the same account |
| `AdminSafety.LinksAlwaysBelong` | src/persistence/postgres-riot-command-store.ts:437-485 | every user has at most one active primary link, and an approved request names a link of its user |
| `AdminSafety.GrantedAsRead` | src/persistence/postgres-riot-command-store.ts:425-436 | a decision or removal granted at the version that was read finds the row exactly as read |
| `IdentityRefresh.RefreshScheduler.StartTick` | src/riot/riot-identity-refresh.ts:44-50 | a tick starts a run if and only if none is running |
| `IdentityRefresh.RefreshScheduler.Run` | src/riot/riot-identity-refresh.ts:56-83 | the run looks at the listed links up to the first update that throws, and moves the cursor only if none did |
| `IdentityRefresh.ReachedMeans` | src/riot/riot-identity-refresh.ts:67-81 | a listed link is looked at exactly if no update before it throws |
| `IdentityRefresh.WrapsExactlyWhen` | src/riot/riot-identity-refresh.ts:56-66 | a tick starts over exactly when no listed link is ahead of the cursor it holds, and a failed listing leaves the cursor |
| `IdentityRefresh.WrapsBracketEveryLink` | src/riot/riot-identity-refresh.ts:56-83 | between two consecutive wrap-arounds every link that stays active is looked at, whatever comes, goes or fails |
| `IdentityRefresh.VisitedExactly` | src/riot/riot-identity-refresh.ts:56-83 | with fixed links and throwing updates, enough ticks look at exactly the links from the cursor to the first throwing one, or, with none ahead, those ahead and those up to the first throwing one |
| `IdentityRefresh.CoverageExactly` | src/riot/riot-identity-refresh.ts:56-83 | enough ticks look at every link from every cursor if and only if no listed link's update throws or there is at most one link |
| `IdentityRefresh.TicksCoverAllLinks` | src/riot/riot-identity-refresh.ts:56-83 | with fixed links and updates that do not throw, ticks for one batch more than the links look at every link from any cursor |
| `IdentityRefresh.CeilingPlusOneSuffices` | src/riot/riot-identity-refresh.ts:44-83 | ceil(n / batch) + 1 ticks are that many |
| `IdentityRefresh.ListingNearsLink` | src/persistence/postgres-riot-identity-store.ts:22-30 | a listing with a link ahead of the cursor holds it or ends short of it |
| `IdentityRefresh.FailingUpdateStarves` | src/riot/riot-identity-refresh.ts:76-82 | over any number of ticks, the first throwing link ahead of the cursor keeps all links behind it and all links already passed from being looked at |

## Left out

- PostgreSQL itself: a transaction is atomic, or a sequence of statements under the row locks it takes at read committed; unique keys come from the migrations.
- Text checks of identifiers and timestamps (patterns, `updated_at >= created_at`), and whitespace other than the four ASCII characters when a field is tested for blankness.
- Composite text keys are taken to be injective: member keys `guild:user`, incident ids and audit ids; Discord ids contain no colon.
- Audit rows everywhere, the administrator result rows of the credit store within the credit modules, and the `source_type`/`source_id` columns of the ledger.
- The claim date is not returned with a refused claim; KST is nine hours ahead of UTC without exception.
- Ledger entry ids are places in the ledger, without the gaps a rolled-back sequence leaves.
- `purge_expired_kbo_accounts`, rankings and dashboard projections: the logic is in SQL or only reads.
- Departure from the credit game is one atomic step; the lock taken for a member without a registration row is not modelled.
- Enrolment is resolved by the statement before the account lock, as in the source, so the atomic call a concurrent placement or claim amounts to is the one for the account resolved then.
- AdminProtocol: the credit and incident stores enter the command protocol by how they rule on a command whose id they claimed; their tables are in their own modules.
- The client's own classification of time-outs, the sockets and the retries of the dashboard: a request may be delivered at any time, any number of times or never.
- The list command's page of requests and its cursor encoding: only whether the cursor's request is still pending matters here.
- Links created other than by approval, and withdrawal reasons of requests.
- The gateway client's own failures when it logs in, reconnects or is destroyed; the time a sleep really takes beyond its due instant is arbitrary.
- The tick of the observation scheduler only chooses when polls and reconciliations begin; any choice is covered.
- A reconciliation that was just answered can still be joined until its promise is cleared; joining it changes nothing.
- The scheduler's memory is for one process: generations and owed notifications are lost on restart.
- The end time and the platform's own history of a game; `riot_game.ended_at` is not modelled.
- Rounding of the quotient used bytes / maximum bytes near 0.8: compared exactly here.
- Expected units are given in name order with distinct names, as the keys of a record are; notifications carry no service version.
- Conversation.CollectCompleteConversation: message ids of one instant must compare as text as they do as numbers, for which one length is enough; of two messages of one instant whose ids differ in length nothing is said.
- Messages of a channel do not change while it is read, and ids grow with time; messages edited or deleted in between are outside the collector's contract.
- The Riot and OpenAI requests, the sections of a summary, Discord rendering, React, Fastify, OAuth, cookies and the singleton lease.
