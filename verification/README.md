# Nuvonode verification model

A Dafny model of the parts of Nuvonode that move credits and decide where requests go, with proofs of
what they guarantee. `dafny verify dfyconfig.toml` checks everything.

| files | what they model |
|---|---|
| Credits, Settlement, WalletService | `addLedger` with 64-bit arithmetic; the wallet operations as functions on the committed tables; the same operations as methods that fault and roll back anywhere |
| Transactions, Schedules | transactions and statements at the grain of single SQL statements, interleaved, with row locks and the unique index on usage records, proved serializable and free of deadlock |
| Refinement, Composition, Realization | requests that begin transactions, wait for their locks and move on when they end; their interleaved statements reach exactly what the protocol reaches |
| Hub, HubService | the rendezvous of dispatched jobs and provider results, as a state machine of goroutines and as an object |
| Binary64, Pricing, PricingLimits, Metering, Billing, Amounts | round-to-nearest-even float64 (section 4.3.1 of IEEE 754-2019), prices and rewards and exactly where they leave integer arithmetic, token counts, and the bill of a result; reservations and bills in plain integer arithmetic |
| Protocol, Guarantees, Settled, Requests, Bookkeeping, JobErrors, Ledgers, Handler | any number of concurrent chat requests, adjustments, registrations and provider messages over the wallet tables and the hub; what holds over whole runs, from the provider's message to wallets, ledgers, job rows and usage records; one request as the sequence of statements in the handler |
| NodeConfig, ConfigRoundTrip, ConfigReading, Text | the provider node's config printer and line reader, their round trip, and what the reader makes of any file |
| Presence, Reachability, Messages, PresenceService | instance status, moderation and routing, which providers are found and for how long, what each message records; the provider tables and a provider connection as an object |
| ProviderStats, Routing, SteadyProviders | the provider statistics row, the routing score, and the one from the other |
| RateLimit, RateLimitRuns | the Redis fixed-window rate limiter with interleaved requests, its bounds, and runs that reach them |

The pieces fit together as follows. `Settlement` describes each transaction as one function on the
tables, and `WalletService` proves the statement-by-statement methods against these functions.
`Protocol` takes the functions as atomic steps, any of which the database may abort, and runs them
together with the hub's steps. `Transactions` runs the single statements of any number of transactions
interleaved and shows that the result is that of some serial order; `Refinement` shows that the
functions are these transactions and that the protocol is such a serial order. `Composition` puts the
requests on top of the statements and shows that each of their runs is a run of the protocol, and
`Realization` that each run of the protocol is one of theirs.

## Where the code differs from its documents

- The reward of a settlement is credited to the user's own wallet (services.go:214), while README.md:313
  and the design document name the provider's. The laws of settlement hold for any reward wallet; the
  results on when a settlement is refused use the code's choice.
- The reward can be one credit below the documented floor(cost * ratio), exactly where
  `RewardMeetsTheFloor` says; `RewardCanMissTheFloor` is an instance.
- The float64 price can be one or two credits short of the documented one: `PriceFallsShort`.
- A `job_error` message with an empty error code is settled as a result (handlers.go:393, 649-652):
  `EmptyErrorIsBilled`.
- The provider's own latency figure goes unchecked into an INT column, so a figure outside the 32-bit
  range makes a settlement fail (`SettlementRefusedOnlyByRange`, `ChargeFits`). The same column type
  bounds `max_tokens` (`WalletService.Store.CreateJob`).
- A request refused for insufficient credits leaves a job row, marked failed (handlers.go:377-385);
  a job that times out is marked failed, never timed out; a settlement that fails leaves its job
  dispatched.
- The handler ignores the error of `Release`. It can occur (`ReleaseCanBeRefused`), and
  `ReleaseRefusedOnlyByRange` says exactly when; the reservation then stays in the wallet for ever.
- A provider that sends two results for one job can block its own read loop for ever
  (`TwoResultsCanStick`, `NeverReturnsIffStuck`).
- The two updates of a statistics statement see the same snapshot (section 7.8.4 of the PostgreSQL 16
  manual), so success rate and trust score may stay at the values of the first job (`RatesCanFreeze`).
  The other results on statistics hold whichever update takes effect.
- The design asks for a fresh heartbeat as a filter of routing (09_routing_metering_credits.md:10); the
  query has none. How old the heartbeat of a routed instance can be follows from the sweeps
  (`RoutedInstancesAreFresh`).
- The rate limiter keys a request by the minute in which it arrives and counts it when Redis executes its
  increment, so a limit of n per minute admits up to 2n requests of one minute (`AtMostTwicePerKey`,
  `TwicePerKeyIsReached`), and up to 5n - 2 of one client in 60 seconds (`AtMostPerWindow`,
  `PerWindowIsReached`), both with delays of a few milliseconds. Without late increments 2n is the bound
  for any 60 seconds (`AtMostTwicePerWindow`). Requests whose increment gets no answer pass unlimited and
  are not among the admitted ones.
- A setting of the node's configuration that does not parse silently becomes false or 0 (config.go:80-84):
  `LinesAreDescribed`, `AtoiRefuses`.

## Conventions

Identifiers are positions in tables or abstract numbers; their uniqueness is the database's. Clocks,
network outcomes, database faults, the random part of an instance key, the answer of Redis and the
choice among several matching model versions are parameters or labels of steps. Row order in a table
is insertion order. "Reachable" means by any finite sequence of steps from the empty system.

## Model

| member | source | states |
|---|---|---|
| Credits.AddLedgerAccepts | apps/api/internal/service/services.go:235-239 | the sign test after Go's wrapping addition accepts exactly the operations whose true sums are non-negative and fit in 64 bits, and then nothing wrapped |
| Credits.AddLedgerSound | apps/api/internal/service/services.go:230-249 | an accepted call leaves the wallet equal to the replay of its ledger, every `balance_after` and `reserved_after` being the non-negative prefix sum at that point |
| Credits.RunOpsSound | apps/api/internal/service/services.go:230-249 | the same for any number of calls in one transaction; the ledger only grows, by exactly those entries in that order |
| Transactions.CommitIsAtomic | apps/api/internal/database/tx.go:12-22 | COMMIT publishes what the whole transaction, with its usage record, job row or audit row, computes on the tables committed last |
| Transactions.RunsAreSerial | apps/api/internal/service/services.go:195-249 | for every interleaving of lock, update, insert, record, mark, commit and rollback steps of any number of transactions and single statements, wallets, ledgers, usage records, job rows, users and audit rows are those of running what committed one at a time in commit order, each accepted: no lost update, no second usage record, no trace of a rollback |
| Transactions.MarkedRowsAreLocked | apps/api/internal/service/services.go:222-224 | a job row that an unfinished settlement has updated is locked: no statement or commit of anyone else changes it |
| Transactions.NoDeadlock | apps/api/internal/service/services.go:202-224 | an unfinished transaction can move, or the holder of the wallet lock it waits for can, or the one whose claim to a job id that holder waits for can |
| Transactions.StatementsMakeProgress | apps/api/internal/service/services.go:202-249 | each statement that is executed brings its transaction closer to COMMIT or ends it |
| Schedules.SerialOrdersRun | apps/api/internal/service/services.go:195-249 | conversely every serial order of accepted transactions and statements is what some interleaving of single statements commits |
| Refinement.OperationIsAtomic | apps/api/internal/service/services.go:129-228 | reserving, releasing, adjusting and settling (paying the user's wallet, as the code does) compute what their statements do as one atomic transaction, and refuse their invalid inputs |
| Refinement.TraceIsSerial | apps/api/internal/handler/handlers.go:376-411 | the tables of a run of the protocol are those of its transactions one after the other |
| Composition.NextRefines | apps/api/internal/service/services.go:108-228 | one statement of any request's or administrator's transaction is at most one step of the protocol, and it commits exactly what that step performs: a request begins its transaction, waits for its locks, and moves on when it commits, is refused or rolls back |
| Composition.StatementsRefineProtocol | apps/api/internal/handler/handlers.go:376-411 | for every interleaving of the statements of all requests, administrators and registrations, with no hypothesis on it, the committed tables and the phases of the requests are those of a run of the protocol, and the database commits that run's operations in its order: all that is proved of runs of the protocol holds of interleaved statements |
| Composition.InterleavedBooksBalance | apps/api/internal/service/services.go:195-249 | for instance at every moment of every interleaving all wallets replay their ledgers and add up to grants plus adjustments minus the margin of the committed usage records |
| Composition.CallersCanMove | apps/api/internal/service/services.go:202-224 | and no caller is stuck in the database: its transaction can move, or the one it waits for can, or the one that one waits for |
| Realization.ProtocolIsReached | apps/api/internal/handler/handlers.go:376-411 | conversely every run of the protocol is a run of single statements after which nothing is left running |
| Refinement.ProtocolRunsAsStatements | apps/api/internal/handler/handlers.go:376-411 | every run of the protocol has an interleaving of statements that commits its operations in its order and ends in its tables |
| Settlement.PostEffect | apps/api/internal/service/services.go:230-249 | a posting moves its own wallet by its two deltas, no other wallet, and the total of all credits by their sum |
| Settlement.FinalizeEffect | apps/api/internal/service/services.go:195-228 | a settlement takes the cost from the user, gives the reward to the reward wallet, closes the reservation, and lowers the total by cost minus reward, for any choice of reward wallet |
| Settlement.FinalizeSound | apps/api/internal/service/services.go:195-228 | all ledgers stay replayable through a settlement |
| Settlement.FinalizeAccepts | apps/api/internal/service/services.go:195-228 | with the reservation held, a cost capped at it and a non-negative reward, a settlement is refused if and only if a balance would pass the 64-bit range or a token count, their total or the latency does not fit its INT column |
| Settlement.ReserveAccepts | apps/api/internal/service/services.go:154-166 | a reservation is accepted if and only if the wallet exists, the amount is positive and at most its balance, and the reserved sum stays in the 64-bit range |
| Settlement.ReleaseAccepts | apps/api/internal/service/services.go:168-175 | a held reservation can be released if and only if the balance stays in the 64-bit range |
| Settlement.SettlesOnce | apps/api/internal/service/services.go:218-221 | after one settlement of a job every later one, whatever its amounts, is refused by the unique usage record |
| Settlement.ReleaseUndoesReserve | apps/api/internal/service/services.go:154-175 | releasing a reservation restores the wallet row and touches no other wallet; only the ledger has grown |
| Settlement.ReleaseCanBeRefused | apps/api/internal/service/services.go:168-175 | a concrete grant, reservation and adjustment after which the release is refused: the release error the handler ignores can occur |
| WalletService.Store.AddLedger | apps/api/internal/service/services.go:230-249 | the statement-by-statement method computes exactly one posting, or reports its error |
| WalletService.Store.Finish | apps/api/internal/database/tx.go:18-21 | a transaction that reports no error committed what it wrote; any error, its own or the database's, leaves all tables as they were at BEGIN |
| WalletService.Store.InTxAddLedger | apps/api/internal/database/tx.go:12-22 | a transaction of one addLedger call commits exactly the posting or leaves all tables as they were, for a driver fault at any statement |
| WalletService.Store.ReserveForUser | apps/api/internal/service/services.go:154-166 | commits exactly the reservation, or changes nothing and reports invalid input, missing wallet, insufficient credits or a fault |
| WalletService.Store.Release | apps/api/internal/service/services.go:168-175 | the same for giving a reservation back |
| WalletService.Store.AdminAdjust | apps/api/internal/service/services.go:129-152 | commits exactly the adjustment and its audit row, or changes nothing; zero amounts and blank reasons are refused |
| WalletService.Store.Register | apps/api/internal/service/services.go:70-95 | the user, the new wallet and its starting grant are created together or not at all; an e-mail in use is refused |
| WalletService.Store.CreateUser | apps/api/internal/repository/store.go:26-30 | the user row is inserted if and only if its e-mail is not in use |
| WalletService.Store.FinalizeLedger | apps/api/internal/service/services.go:202-217 | the three conditional ledger entries of a settlement, in order |
| WalletService.Store.InsertUsage | apps/api/internal/service/services.go:218-221 | the usage record is inserted if and only if its figures fit their columns and the job exists and has none yet |
| WalletService.Store.FinalizeUsage | apps/api/internal/service/services.go:195-228 | ledger entries, usage record, job row and statistics commit together as specified or not at all |
| WalletService.Store.CreateJob | apps/api/internal/repository/store.go:336-340 | appends one queued job row, or nothing: a public id in use and estimates beyond the INT columns are refused |
| WalletService.Store.MarkJob | apps/api/internal/repository/store.go:342-350 | sets the status of one job row; an error or a missing row changes nothing |
| Binary64.RoundError | apps/api/internal/service/services.go:251-255 | float64 rounding of a non-negative real has relative error at most 2^-53 |
| Binary64.RoundInt | apps/api/internal/service/services.go:251-255 | integers up to 2^53 are exact in float64 |
| Binary64.RoundMonotone | apps/api/internal/service/services.go:251-255 | float64 rounding is monotone |
| Pricing.PriceIsExact | apps/api/internal/service/services.go:251-253 | with both products below 2^53 the float64 price equals ceil(in*rin/1000) + ceil(out*rout/1000) over the integers |
| Pricing.PriceMonotone | apps/api/internal/service/services.go:251-253 | the float64 price never falls when a count or a rate grows and is never negative, up to the 64-bit range |
| Pricing.RewardWithinCost | apps/api/internal/service/services.go:255 | for stored ratios from 0 to 1 the reward lies between 0 and the cost if and only if it is not the case that the ratio is 1 and float64(cost) rounds up |
| Pricing.RewardIsShare | apps/api/internal/service/services.go:255 | for costs up to 2^53 the reward lies between 0 and the cost |
| Pricing.RewardFloorOrOneLess | docs/architecture/09_routing_metering_credits.md:84 | for costs up to 2^38 the reward is the documented floor(cost * ratio) or one less, the latter only where cost * ratio is whole |
| PricingLimits.PriceFallsShort | apps/api/internal/service/services.go:251-253 | with factors up to 2^53 and products below 2^54 the float64 price is short by one credit for each product above 2^53 that leaves remainder 1 modulo 1000, and exact if and only if neither does |
| PricingLimits.PriceCanMissAbove | apps/api/internal/service/services.go:251-253 | its first instance: the product 2^53 + 9 |
| PricingLimits.WholeShareIsPaid | apps/api/internal/service/services.go:255 | a share that is a whole number m is paid in full if and only if the product with the stored ratio lies within half a unit of float64 below m, and always if the stored ratio is not below the decimal one |
| PricingLimits.RewardMeetsTheFloor | docs/architecture/09_routing_metering_credits.md:84 | for costs up to 2^38 the documented floor(cost * ratio) is paid if and only if the share is not whole, or zero, or paid in full; otherwise one credit less |
| PricingLimits.BinadeOf | apps/api/internal/service/services.go:255 | the exponent this speaks of exists for every share |
| PricingLimits.RewardCanMissTheFloor | apps/api/internal/service/services.go:255 | its instance: a ratio of 0.29 on 100 credits lies 0.5625 units below and pays 28, not the documented 29 |
| Metering.ValidationIsStable | apps/api/internal/metering/estimator.go:7-30 | whichever source is chosen, both counts are non-negative, lie in the plausible range, and are accepted unchanged by a second validation |
| Metering.SourceIsNamed | apps/api/internal/metering/estimator.go:14-30 | a report is used, and named as the source, if and only if each of its counts is between an eighth and half of its text, plus a hundred; otherwise both are estimated at a quarter, rounded up |
| Metering.ReportedCostNearEstimate | apps/api/internal/metering/estimator.go:14-30 | a provider's accepted report costs at most twice the server's estimate plus a tenth of both rates, and the estimate at most twice the report |
| Billing.ChargeIsProper | apps/api/internal/handler/handlers.go:397-407 | in the exact range the bill of any result satisfies 0 <= reward <= cost <= reservation, and the cost is the integer price of plausible counts capped at the reservation |
| Billing.ChargeIsShare | apps/api/internal/handler/handlers.go:403-407 | in any range, for a ratio from 0 to 1, a bill's reward is a share of its cost if and only if it is not the case that the ratio is 1 and float64(cost) rounds up |
| Billing.ChargeFits | apps/api/internal/handler/handlers.go:397-402 | for texts below 2^30 characters the figures of a bill fit the usage record if and only if the provider's latency does |
| Billing.CostIsNegative | apps/api/internal/handler/handlers.go:403-406 | for valid rates a bill's cost is negative if and only if the price of the counts charged for leaves the 64-bit range: not if both parts do, which then cancel out to zero |
| Billing.RewardIsNegative | apps/api/internal/handler/handlers.go:407 | for a ratio from 0 to 1 the reward on a cost that is not negative is negative if and only if the ratio is 1 and float64(cost) rounds up to 2^63 |
| Billing.EmptyErrorIsBilled | apps/api/internal/handler/handlers.go:649-652 | a job_error with an empty code is billed as an empty completion, the prompt at its estimate |
| Amounts.QuoteIsPrice | apps/api/internal/handler/handlers.go:375-376 | in the exact range the reservation is ceil(ceil(inputChars / 4) * inputRate / 1000) + ceil(maxTokens * outputRate / 1000) |
| Amounts.ChargeMeasures | apps/api/internal/handler/handlers.go:397-402 | a bill measures exactly the provider's report, prompt first, if both counts can belong to their texts, and otherwise a quarter of each length rounded up; and the provider's latency |
| Amounts.ChargeIsPrice | apps/api/internal/handler/handlers.go:403-406 | in the exact range it costs the price of these tokens at their own rates, or the reservation if that is less |
| Hub.NextKeepsInv | apps/api/internal/ws/hub.go:68-138 | every step keeps: map keys are the dispatches between insert and delete, each on its own channel; results travel only on their own job's channel; consumed results were delivered by a completion |
| Hub.RunsAreSafe | apps/api/internal/ws/hub.go:91-138 | hence in every run in which no job id is dispatched twice a dispatch only returns a result for its own job that some completion delivered |
| Hub.OutcomeIsFinal | apps/api/internal/ws/hub.go:118-126 | what a dispatch returned is never changed by anything that arrives later |
| Hub.ConnectedIffRegistered | apps/api/internal/ws/hub.go:68-89 | in every run a provider is connected if and only if it registered and has not unregistered since, whatever other providers did |
| Hub.UnavailableIffNotConnected | apps/api/internal/ws/hub.go:91-97 | a dispatch ends with its provider unavailable if and only if the provider was not connected when it started |
| Hub.WaitsOnlyBehindDuplicate | apps/api/internal/ws/hub.go:129-138 | a completion that cannot send has another delivered completion for the same job before it: with one completion per job none ever waits |
| Hub.StuckForEver | apps/api/internal/ws/hub.go:129-138 | a completion waiting on a full channel nobody reads any more never returns, whatever follows |
| Hub.NeverReturnsIffStuck | apps/api/internal/ws/hub.go:129-138 | a waiting completion can never return if and only if its channel is full and no dispatch that holds the channel is still before its receive |
| Hub.TwoResultsCanStick | apps/api/internal/ws/hub.go:129-138 | that state is reachable: two results for one job around its timeout |
| HubService.Server.Register | apps/api/internal/ws/hub.go:68-72 | adds exactly this provider to the connected ones |
| HubService.Server.Unregister | apps/api/internal/ws/hub.go:74-78 | removes exactly this provider |
| HubService.Server.Disconnect | apps/api/internal/ws/hub.go:80-89 | removes the provider and tells whether there was a connection to close |
| HubService.Server.Lookup | apps/api/internal/ws/hub.go:92-97 | the first critical section of Dispatch is the lookup step of the state machine |
| HubService.Server.Insert | apps/api/internal/ws/hub.go:98-101 | the second makes a fresh channel and maps the job id to it |
| HubService.Server.WriteRequest | apps/api/internal/ws/hub.go:107-117 | a written request leads to the wait, a failed write to the return |
| HubService.Server.Select | apps/api/internal/ws/hub.go:121-126 | a buffered result is taken, otherwise the wait times out |
| HubService.Server.Delete | apps/api/internal/ws/hub.go:102-106 | the deferred delete removes the job's own entry |
| HubService.Server.StartComplete | apps/api/internal/ws/hub.go:129-135 | a completion finds the job's channel or reports that there is none |
| HubService.Server.TrySend | apps/api/internal/ws/hub.go:136-137 | the send succeeds if and only if the buffer is empty |
| HubService.Server.Await | apps/api/internal/ws/hub.go:121-126 | while waiting, a result is consumed if and only if it carries this job's id |
| HubService.Server.Exchange | apps/api/internal/ws/hub.go:107-126 | a written request leads to the wait and its outcome, a failed write to an error |
| HubService.Server.Dispatch | apps/api/internal/ws/hub.go:91-127 | one whole dispatch: its outcome for every combination of connection, write and arriving result, and the map comes back without the job |
| Protocol.NextKeepsInv | apps/api/internal/handler/handlers.go:376-411 | every step of requests, administrators, registrations and providers, with any transaction aborted, keeps books, job rows, requests and hub consistent with each other |
| Guarantees.ReservedCreditsAreAccountedFor | apps/api/internal/handler/handlers.go:376-411 | in every reachable state a wallet's reserved credits are the reservations of its requests in flight plus those whose release failed; none in flight and none lost means zero |
| Guarantees.LedgersReplay | apps/api/internal/service/services.go:230-249 | in every reachable state every wallet is the replay of its ledger |
| Guarantees.ReleaseRefusedOnlyByRange | apps/api/internal/handler/handlers.go:388-396 | whatever ran in between, a release of a request is refused if and only if the balance would pass the 64-bit range |
| Guarantees.SettlementRefusedOnlyByRange | apps/api/internal/handler/handlers.go:403-411 | whatever ran in between, a settlement is refused if and only if the bill is negative, one of its figures does not fit the usage record, or a balance would pass the 64-bit range; and for valid rates the bill is negative if and only if the price of the counts charged for, or the whole cost as a reward, leaves the 64-bit range |
| Guarantees.ReachableBilled | apps/api/internal/handler/handlers.go:396-408 | every usage record carries the bill of the very result its own request consumed |
| Requests.CreationIff | apps/api/internal/handler/handlers.go:375-380 | in every reachable state a request is accepted into the job table if and only if its public id is new and its estimate and limit fit their columns, and it then appears queued and reserves nothing yet |
| Requests.ReservationsAreExact | apps/api/internal/handler/handlers.go:375-381 | in every reachable state every request has the wallet and terms it was created with, and its reservation is exactly their price |
| Requests.ReservationIff | apps/api/internal/service/services.go:154-166 | in every reachable state a reservation the database does not abort is accepted if and only if the wallet exists, the quote is positive and at most its balance, and the reserved sum stays in range |
| Requests.RecordsAreExact | apps/api/internal/handler/handlers.go:397-408 | in every reachable state every usage record is of the result its own request consumed, which carries that job's id and no error code, with exactly its tokens and latency, and in the exact range costs their price or the reservation |
| Requests.JobRowsTell | apps/api/internal/repository/store.go:342-350 | in every run without a lost status update each job row says where its request stands: queued, dispatched, succeeded exactly after a settlement, dispatched for ever after a refused one, failed after a refused reservation or a dispatch without a proper result |
| Bookkeeping.EntriesHaveCounterparts | apps/api/internal/service/services.go:70-249 | in every reachable state grant entries add up to the starting grants, reward entries to the rewards of the usage records, and on every wallet the adjustments to its audit rows and the debits to the costs of its requests' usage records |
| Bookkeeping.SignUpIff | apps/api/internal/service/services.go:70-95 | a registration is accepted if and only if its e-mail is new and the grant is not negative, and adds one user and one wallet holding the grant |
| Bookkeeping.EmailsDiffer | apps/api/internal/repository/store.go:26-30 | in every reachable state all e-mails differ |
| Bookkeeping.AdjustIff | apps/api/internal/service/services.go:129-152 | an adjustment is accepted if and only if its amount is not zero, its reason holds more than spaces, the wallet exists and its balance stays in range; it moves that wallet alone and writes one audit row with the trimmed reason |
| JobErrors.ErrorIsHandedOver | apps/api/internal/handler/handlers.go:649-652 | a job_error message hands the hub one empty result of its own job and with its own error code |
| JobErrors.ErrorsAreNeverBilled | apps/api/internal/handler/handlers.go:393-396 | in every run a request whose dispatch ended in an error with a code is never settled, marked succeeded or recorded, whatever follows |
| JobErrors.ErrorsAreReleased | apps/api/internal/handler/handlers.go:393-396 | and once finished it has given its reservation back exactly once, if no release is stopped, and its job row says failed, if no status update is lost |
| JobErrors.JobErrorGivesBack | apps/api/internal/handler/handlers.go:393-396 | from every state of the protocol a job_error with a code for a waiting request, consumed, gives the reservation back to its wallet and touches no other, marks the job failed and records nothing |
| JobErrors.EmptyErrorIsSettled | apps/api/internal/handler/handlers.go:649-652 | the same message with an empty code is settled, with the prompt's estimate and no completion recorded |
| Guarantees.CreditsAreConserved | apps/api/internal/service/services.go:195-249 | over whole runs, balances plus reservations equal grants plus adjustments minus the margins of settled jobs, for any choice of reward wallets; for every valid ratio a record's reward is at most its cost if and only if it is not the case that the ratio is 1 and float64(cost) rounds up, and without such a record no credits appear beyond grants and adjustments |
| Guarantees.SucceededIffRecorded | apps/api/internal/repository/store.go:342-350 | a job row is succeeded if and only if one usage record names the job, no two records name the same one, and a failed job holds no credits unless its release was lost |
| Guarantees.NothingIsLost | apps/api/internal/handler/handlers.go:387-411 | if no release is aborted or passes the 64-bit range, no reservation is ever lost |
| Guarantees.ReservationsCloseExactlyOnce | apps/api/internal/handler/handlers.go:376-411 | then every finished request closed its reservation exactly once: it was settled if and only if its dispatch returned a result without error code, carrying its own job id, and its one settlement was not aborted or refused, and released if and only if not; a request without a reservation was never dispatched |
| Guarantees.NothingIsRefused | apps/api/internal/handler/handlers.go:403-411 | no settlement is aborted or refused in a run whose settlements the database does not abort, whose bills are not negative and fit the usage record, and whose balances stay in the 64-bit range |
| Guarantees.ResultsAreSettled | apps/api/internal/handler/handlers.go:397-411 | in such a run every finished request whose dispatch returned a result without error code was settled and not released, and its job row says succeeded |
| Settled.WaitingRequestIsSettled | apps/api/internal/handler/handlers.go:387-411 | from every state of the protocol a waiting request is settled by any result for it that can be paid and recorded: six steps later it is done, its job row is succeeded and its usage record carries the bill |
| Settled.SettlementIsReached | apps/api/internal/handler/handlers.go:335-411 | and from the empty system such a settlement is reached: a run in which a request for one token is settled at its reservation of two credits |
| Ledgers.EntriesCountReservations | apps/api/internal/service/services.go:164-174 | in every reachable state a wallet's reserve entries number the reservations its requests took, and its release entries those that were released or settled |
| Ledgers.ReserveAndReleaseEntriesPair | apps/api/internal/service/services.go:164-207 | once all requests of a wallet have finished and no release was stopped, its ledger has one release entry for every reserve entry |
| Guarantees.LateResultsChangeNothing | apps/api/internal/ws/hub.go:121-138 | once a dispatch ended without a proper result its job is never settled, marked succeeded or recorded, whatever arrives later |
| Guarantees.NoStepBack | apps/api/internal/handler/handlers.go:376-411 | no step of anyone takes a request back |
| Guarantees.OwnStepMovesOn | apps/api/internal/handler/handlers.go:376-411 | every own step of a request, aborted or not, brings it closer to its end |
| Guarantees.RequestsFinish | apps/api/internal/handler/handlers.go:376-411 | from every reachable state every request can finish within eleven steps of its own |
| Handler.CountChars | apps/api/internal/handler/handlers.go:371-374 | the accumulating loop is the total length of the messages in bytes |
| Handler.CheckRequest | apps/api/internal/handler/handlers.go:337-347 | a request is accepted if and only if it does not stream, names a model, and has messages, each with content and a known role |
| Handler.EstimatedIff | apps/api/internal/handler/handlers.go:375-380 | a job row is created if and only if its public id is new and a quarter of the request's bytes and its token limit fit their columns, the limit being the request's own if positive and the model's otherwise |
| Handler.QuoteHoldsPrice | apps/api/internal/handler/handlers.go:367-381 | what the wallet holds during the dispatch is the price of a quarter of the request's bytes and of that limit |
| Handler.CompletionPaysPrice | apps/api/internal/handler/handlers.go:397-408 | a completed request is recorded with exactly its tokens and costs their price, at most the price it held |
| Handler.ChatCompletions | apps/api/internal/handler/handlers.go:335-411 | one whole request on a reliable database: for every input and every dispatch outcome the response, the job row, and the exact change of every wallet; a result completes if and only if its bill can be paid and recorded, refused and failed requests leave all balances as they were, and while the provider works the wallet holds exactly the price of the request's bytes and its own or the model's token limit in reserve |
| Handler.Serve | apps/api/internal/handler/handlers.go:381-411 | the same from the created job row on |
| Handler.Conclude | apps/api/internal/handler/handlers.go:387-411 | the same from the end of the dispatch on |
| Handler.FailDispatch | apps/api/internal/handler/handlers.go:388-396 | a failed dispatch gives the credits back and marks the job failed |
| Handler.Settle | apps/api/internal/handler/handlers.go:408-411 | a result is settled at exactly its bill if and only if the bill can be paid and recorded; otherwise the credits are given back |
| NodeConfig.Write | apps/provider-node/internal/config/config.go:95-108 | the text of the written file, key by key and slug by slug in order |
| NodeConfig.Load | apps/provider-node/internal/config/config.go:39-93 | the fold of the line reader over the lines of the text, or the scanner's error for an overlong line |
| NodeConfig.ReadLine | apps/provider-node/internal/config/config.go:48-88 | the loop body: comments, list items, keys and the list flag |
| ConfigRoundTrip.ValueReturns | apps/provider-node/internal/config/config.go:62-63 | a printed string value is read back unchanged if and only if it holds no quote or backslash and does not start or end with an apostrophe |
| ConfigRoundTrip.AtoiItoa | apps/provider-node/internal/config/config.go:82-84 | printed 64-bit integers are read back |
| ConfigRoundTrip.FileRead | apps/provider-node/internal/config/config.go:39-108 | loading the written lines gives every field as its printed value reads, and the slugs in order |
| ConfigRoundTrip.SplitJoin | apps/provider-node/internal/config/config.go:46-49 | the scanner returns the written lines |
| ConfigRoundTrip.RoundTrip | apps/provider-node/internal/config/config.go:39-108 | Load of Write's text returns the same config, completed by its instance key, if and only if every line fits the scanner and every string value and slug survives its quotes |
| ConfigRoundTrip.CommentsChangeNothing | apps/provider-node/internal/config/config.go:50-52 | a blank or comment line inserted anywhere in a file, even inside the list, changes nothing |
| ConfigRoundTrip.AtoiReads | apps/provider-node/internal/config/config.go:82-84 | decimal digits with an optional sign are read as their number, or as the nearest bound of the 64-bit range |
| ConfigRoundTrip.AtoiRefuses | apps/provider-node/internal/config/config.go:82-84 | and anything with another character as zero |
| ConfigReading.LinesAreDescribed | apps/provider-node/internal/config/config.go:39-93 | for any lines, hand-written ones included, every setting is that of the last line with its key or its default, a boolean is true for six spellings only, unknown keys and lines without a colon are skipped, and the slugs are the items under a header, in order |
| ConfigReading.LoadIsDescribed | apps/provider-node/internal/config/config.go:39-93 | hence Load reads every text without an overlong line as described |
| Presence.RoutedInstancesAreFresh | apps/api/cmd/api/main.go:48-62 | in every run, while the last successful sweep is at most an interval old, a request is routed only to an instance whose heartbeat is at most timeout plus interval old |
| Presence.DisabledIsFinal | apps/api/internal/repository/store.go:378-385 | a disabled provider is never routed to again, whatever hellos, heartbeats, approvals and model lists follow |
| Presence.AdvertisementsAreUnique | apps/api/internal/repository/store.go:314-317 | in every run there is at most one advertisement per provider, instance, runtime and name |
| Presence.RoutesAreModerated | apps/api/internal/repository/store.go:327-334 | in every run a request is routed only over an advertisement and to a provider that were approved and not rejected since, on an instance that is online |
| Presence.AdvertisingKeepsStatus | apps/api/internal/repository/store.go:314-317 | without a decision on it an advertisement keeps status, model version and identity through any run; advertising again only changes its digest |
| Presence.SessionsOwnTheirRows | apps/api/internal/handler/handlers.go:559-643 | in every run a connection reports only for an instance of its own provider, and every advertisement names an instance of its own provider |
| Reachability.RoutesServeTheModel | apps/api/internal/repository/store.go:327-334 | in every run a request is routed only over an approved advertisement matched to the very model asked for, through a version row that is active now, to an approved and enabled provider and an online instance of its own; and it was inserted while an active version of its match served its runtime and name |
| Reachability.ApprovedModelIsFound | apps/api/internal/repository/store.go:327-334 | conversely such an advertisement, provider, instance and version are enough for a route |
| Reachability.LatestHeartbeatWins | apps/api/internal/repository/store.go:327-334 | and no such advertisement has a later heartbeat than the route |
| Reachability.ReportingInstancesStay | apps/api/internal/repository/store.go:292-303 | in every run an instance keeps the status and time of its last message while no sweep runs more than the timeout after it and its provider is not disabled |
| Reachability.ReportingInstancesAreFound | apps/api/internal/repository/store.go:327-334 | so a reporting instance of an approved provider with an approved advertisement is found for its model |
| Reachability.FailedHelloForgets | apps/api/internal/handler/handlers.go:581-593 | a failed hello leaves its session without an instance, one without a key is ignored |
| Reachability.AdvertisedIsRecorded | apps/api/internal/repository/store.go:314-317 | an advertised model has the digest it was advertised with, a new one waits for a decision, and every other row is as it was |
| Reachability.DisabledIsOffline | apps/api/internal/repository/store.go:378-385 | disabling takes exactly the provider's own instances offline and keeps it from connecting |
| Reachability.RouteIsReached | apps/api/internal/repository/store.go:327-334 | a run from the empty tables in which a route is found |
| Messages.HelloIsRecorded | apps/api/internal/handler/handlers.go:581-593 | after a hello that reached the database the session reports for the instance with its key, which is online now, and every other instance is as it was; after a failed one it reports for none |
| Messages.HeartbeatIsRecorded | apps/api/internal/handler/handlers.go:594-606 | a heartbeat message sets status and time of the session's own instance if its status is known, and changes nothing else |
| Messages.HardwareIsRecorded | apps/api/internal/handler/handlers.go:607-627 | a hardware report is stored for the session's instance |
| Messages.ModelListIsRecorded | apps/api/internal/service/services.go:396-409 | a model list records each entry that is not blank with its digest, up to the first that fails, and touches no row of another name |
| PresenceService.MatchVersion | apps/api/internal/repository/store.go:315 | finds an active model version of that runtime and name, or there is none |
| PresenceService.Api.UpsertInstance | apps/api/internal/repository/store.go:292-296 | updates the row with this provider and key, or appends one |
| PresenceService.Api.SayHello | apps/api/internal/handler/handlers.go:581-593 | a hello puts its instance online and becomes the session's instance; a failed one leaves the session without an instance |
| PresenceService.Api.Beat | apps/api/internal/service/services.go:385-390 | a heartbeat with a known status changes only the session's own instance; anything else changes nothing |
| PresenceService.Api.UpdateAds | apps/api/internal/repository/store.go:315 | changes the digest of exactly the matching rows and tells whether there was one |
| PresenceService.Api.UpsertAd | apps/api/internal/repository/store.go:314-317 | changes the digest of the matching rows, or inserts one pending row |
| PresenceService.Api.ModelList | apps/api/internal/service/services.go:396-409 | handles the entries in order up to the first failure, skipping blank names |
| PresenceService.Api.Handle | apps/api/internal/handler/handlers.go:580-653 | each message is exactly its statements; hardware reports are stored for the session's instance, a result is handed to the hub as it is and an error as an empty result with its job id and code |
| PresenceService.Api.ProviderWS | apps/api/internal/handler/handlers.go:559-656 | a whole connection is the run of its messages' statements; a disabled provider cannot connect |
| PresenceService.Api.MarkStaleOffline | apps/api/internal/repository/store.go:481-487 | exactly the instances that are not offline and beat before the cutoff go offline, and every other is as it was |
| PresenceService.Api.DisableProvider | apps/api/internal/repository/store.go:378-385 | the provider is disabled and all its instances go offline, no others |
| PresenceService.Api.FindRoutableProvider | apps/api/internal/repository/store.go:327-334 | returns an eligible row for this model with the latest heartbeat, and none if and only if no row is eligible |
| ProviderStats.CountersAddUp | apps/api/internal/service/services.go:225 | in every run total = succeeded + failed + timed out = number of counted events, and there is an average exactly when there was a success, for every reading of the double update |
| ProviderStats.AverageIsNearTheMean | apps/api/internal/service/services.go:225 | in every run the stored average of n latencies is within 0.0025 (n + 1) ms of their mean and never outside their range |
| ProviderStats.AverageIsNotTheRoundedMean | apps/api/internal/service/services.go:225 | it need not be the rounded mean: seven latencies for which it is not |
| ProviderStats.ScoreIsFormula | apps/api/internal/service/services.go:225 | the stored trust score is 70 * success rate + max(0, 20 - latency / 500), bounded to [0, 100], to the nearest ten-thousandth |
| ProviderStats.ScoreIsBounded | apps/api/internal/service/services.go:225 | the trust formula gives at most 100, and at most 90 unless the average is negative |
| ProviderStats.RatesStayInRange | database/schema_v1.sql:272-273 | in every run the success rate lies in [0, 1] and the trust score in [0, 100] |
| ProviderStats.RatesCanFreeze | apps/api/internal/service/services.go:225 | if only the upsert takes effect, rate and score keep for ever the values of the first event |
| ProviderStats.RatesCanFollow | apps/api/internal/service/services.go:225 | if the second update takes effect, the rate is the rounded share of successes among the counted events and the score follows the formula |
| ProviderStats.Table.Upsert | apps/api/internal/service/services.go:225 | the statement changes one provider's row as specified and no other |
| ProviderStats.Table.MarkJobFailed | apps/api/internal/repository/store.go:347-350 | a failed job changes the row of its provider, if it has one, by one failure or timeout |
| Routing.ScoreNeverRises | apps/api/internal/service/routing_service.go:14-29 | the score never rises with more latency, queue depth or heartbeat age |
| Routing.PreferIsStrictWeakOrder | apps/api/internal/service/routing_service.go:31-38 | PreferRoute is irreflexive, asymmetric and transitive, and its ties are transitive, whatever the score |
| Routing.ScoresOfRunsAreBounded | apps/api/internal/service/routing_service.go:14-29 | whatever its history of results, a provider scores between 0 and 100 |
| SteadyProviders.FirstRow | apps/api/internal/service/services.go:225 | the row after the first event: a success has rate 1 and trust 90 less its latency over 500, a failure rate 0 and trust 0, or 15 if the second update takes effect |
| SteadyProviders.SteadyScore | apps/api/internal/service/routing_service.go:14-29 | a provider with nothing but successes of latency l up to 5000 ms scores 76.5 - 0.0047 l, plus up to 10 points each for its queue and its heartbeat |
| SteadyProviders.SteadyPreference | apps/api/internal/service/routing_service.go:31-38 | so of two such providers the faster is preferred, at equal latency the one with fewer jobs, and both to one without figures |
| RateLimit.RunKeepsInv | apps/api/internal/httpx/middleware.go:41-48 | in every run the counter of a running minute is the number of its increments, and each restart of a counter and each expiry comes a minute after the one before |
| RateLimit.AtMostPerMinute | apps/api/internal/httpx/middleware.go:45-50 | of the increments executed within the minute of their key at most perMinute are admitted, exactly the first ones if all replies arrive, and none is refused before |
| RateLimit.AtMostPerStart | apps/api/internal/httpx/middleware.go:41-50 | a key whose increments are all executed within a number of minutes after its own admits at most that number plus one times perMinute, however late or unanswered they are |
| RateLimit.OneExpiryPerStart | apps/api/internal/httpx/middleware.go:45-47 | in every run a key is given at most one expiry for each start of its counter, so later increments never prolong it |
| RateLimit.ExceedsIffRestarted | apps/api/internal/httpx/middleware.go:41-50 | when all its replies arrive, a key admits more than perMinute requests if and only if it has more than perMinute increments and its counter expired before one of them |
| RateLimit.AtMostTwicePerKey | apps/api/internal/httpx/middleware.go:41-50 | with every increment executed less than a minute after its request arrived, as the one-second context has it, a key admits at most 2 * perMinute |
| RateLimitRuns.TwicePerKeyIsReached | apps/api/internal/httpx/middleware.go:41-50 | and that many are admitted in some run, for every limit, with no delay above two milliseconds |
| RateLimit.FewPerKeyInWindow | apps/api/internal/httpx/middleware.go:41-50 | in any 60 seconds a key admits fewer than 2 * perMinute requests, however late they are |
| RateLimit.AtMostPerWindow | apps/api/internal/httpx/middleware.go:41-50 | with every increment executed less than a minute after its request arrived, a client gets at most 5 * perMinute - 2 requests admitted in any 60 seconds, late increments included |
| RateLimitRuns.PerWindowIsReached | apps/api/internal/httpx/middleware.go:41-50 | and that many are admitted in some run, for every limit, with no delay above four milliseconds |
| RateLimit.AtMostTwicePerWindow | apps/api/internal/httpx/middleware.go:45-50 | at most 2 * perMinute of a client are admitted in any 60 seconds in which none of its increments is executed after its key's minute |
| RateLimit.Limiter.Increment | apps/api/internal/httpx/middleware.go:44 | INCR counts on or restarts an expired counter |
| RateLimit.Limiter.RateLimitMiddleware | apps/api/internal/httpx/middleware.go:36-53 | one request is exactly its steps; it passes without a limit or a connection, or when its increment fails, and otherwise if and only if its count is within the limit |

## Left out

- HTTP, WebSocket and JSON handling, the Fiber, pgx and Redis drivers, the Ollama client, `serve.go` and `doctor`: input and output around libraries; the network appears as outcomes of steps.
- The web app: user interface and fetch wrappers.
- bcrypt, JWT, SHA-256 and random tokens: foreign cryptography.
- Admin role checks, model validation, list queries and filters: each settled by reading one branch.
- Crash and restart: there is no recovery code, so a crash between reservation and release loses the reservation; the liveness results assume the process lives.
- The token source of a usage record: `Metering.SourceIsNamed` says which it is, the record does not hold it.
- Commits whose outcome the client cannot know: an error means the transaction did not commit.
- `LedgerForWallet` ordering: it sorts by transaction start, the model's ledgers are in commit order.
- Project monthly limits, idempotency keys, `timed_out` jobs, provider fallback and the uptime bonus: documented, not implemented.
- Wiring of `PreferRoute` into provider selection: `FindRoutableProvider` orders by heartbeat.
- Whether a hub entry is a live connection: a stale connection's deferred `Unregister` removes by provider id.
- float64 overflow and gradual underflow: outside every range used; a conversion beyond the 64-bit range is taken to give the smallest 64-bit integer, as on amd64.
- The lookups of a chat request after its checks (API key, model, external models, routing): they end the request before any state changes.
- Transactions.RunsAreSerial: a registration is one statement, since nobody sees its wallet before it commits; the statistics row a settlement updates last is not among the tables.
- WalletService.Store.Register: takes the normalised e-mail; the checks of name and password, the hash and the administrator role of the first user are left out.
- WalletService.Store.FinalizeUsage: the statistics statement appears as a statement that may fail; what it writes is modelled in ProviderStats.
- Guarantees.RequestsFinish: assumes that writing the request to the provider's connection returns; hub.go:107-114 sets no deadline for it and starts the timeout after it.
- Handler.ChatCompletions: runs one request with no other in between, as does HubService.Server.Dispatch; interference is the subject of Protocol and Hub.
- PresenceService.Api.ProviderWS: handles one connection with no other in between; replies to the provider are not modelled.
- Two concurrent model lists: `Presence.AdvertisementsAreUnique` runs statements one at a time, since no constraint of the schema stops two concurrent statements from both inserting a row.
- Presence uses one clock for heartbeats and ticks; a difference between the database's and the API's clocks adds to the bound of `Presence.RoutedInstancesAreFresh`.
- `ConfigRoundTrip.RoundTrip` is about values of printable ASCII; `%q` escapes of other characters, file permissions and I/O errors are not modelled.
- ProviderStats divides exactly before rounding to the column's digits; the database's longer intermediate quotients and column overflow are not modelled.
- Routing computes over exact reals; rounding of float64 scores and infinite inputs are not modelled.
- Redis eviction, restart and clock changes: a counter disappears only by its expiry, and one clock stamps the keys in the API and expires them in Redis; a difference between the two clocks acts like a delay.
