# Trading-terminal worker: verified protocols

An always-on worker keeps the trades of three brokers in step with a database: MetaApi (through billed
cloud terminals), cTrader (one socket per environment) and TradeLocker (one stream per account). A fourth
part ingests price candles. This project models the worker's concurrent protocols and the folds and caches
they rest on, and proves what they promise.

Every protocol is a state machine whose steps are the stretches of code between two `await`s; anything else
may run in between, and every call may succeed, fail, or fail after taking effect. A `Step` function gives the
meaning of each stretch, an invariant is kept by every step, and the main results speak about every run. Beside
each machine stands a class with the source object's fields, whose methods change them statement by statement
and are proved equal to the step they implement. Money is exact reals or whole cents.

| file | what it models |
|---|---|
| `TerminalBilling.dfy`, `MetaApiErrors.dfy` | the life of billed cloud terminals: open, give-up, teardown, destroy |
| `TerminalAttempts.dfy` | MetaApi connect attempts under free interleaving: single flight, handles, ownership |
| `CtraderSockets.dfy` | cTrader sockets and reconnect timers, one per environment |
| `CtraderRouting.dfy`, `Signatures.dfy` | reconcile, routing index, duplicates, account-set fingerprints |
| `TokenProbe.dfy` | the cheap probe that gates the reload of cTrader tokens |
| `SerialChains.dfy` | the per-position promise chains shared by all three writers |
| `TradeWriters.dfy`, `Metrics.dfy` | what each write does to a trade row |
| `CtraderBackfill.dfy`, `BackfillRun.dfy` | rebuilding cTrader positions from history, and one backfill run |
| `BackfillWindow.dfy` | the moving window of the backfill, over any series of reconnects |
| `DealAggregator.dfy`, `Grouping.dfy` | rebuilding MT5 positions from deals, with the migration clamp |
| `TradeLockerSessions.dfy` | TradeLocker account sessions and their stream connections |
| `CloseFinalizer.dfy`, `CloseHistory.dfy`, `Pacer.dfy` | close finalization, the report walk, the request pacer |
| `CandleFold.dfy`, `Calendar.dfy` | the OHLCV fold, UTC days, months and years |
| `IngestSpan.dfy`, `IngestQueue.dfy`, `MapPool.dfy` | one ingest job, the job queue, the worker-pool map |

## Where the code does less than it says

Each of these is a theorem with the exact condition under which the promise holds.

- **Billing** (header of `src/metaapi/connection-manager.service.ts`: no hiding status before a confirmed stop).
  An attempt that gives up without knowing the id of an existing cloud account hides the row and strands a
  running terminal. `OpenStrandsIff` and `NeverStrandedIff` say exactly when; `LostCreateStrandsTerminal` is a
  concrete run.
- **Close handles.** The session's close handle closes the stream and then the RPC connection with no guard in
  between; a rejected `stream.close()` leaves the RPC open with nobody to close it (`RejectedCloseLeaksRpc`).
  `LeakStep` says which single steps lose a connection, `LeakedExactly` when a run has lost one: the last close
  handle's stream close rejects after the attempt has ended, or the attempt returns from its success write after
  such a rejection. A rejected `rpc.close()` loses nothing.
- **Token probe.** A reload that fails is not retried until something else changes, and a row that appears
  between the probe and the load and is deactivated afterwards is served on. `SkipHidesNothingIff` is the exact
  condition, on the last reload of the run; `LateRowIsKept` and `FailedLoadIsNotRetried` are the two ways.
- **Backfill window** (`src/ctrader/ctrader-trade-writer.ts:60-65`: a re-run on every reconnect is idempotent and
  converges). The window begins fifteen days before the newest exit date stored, so a run's own writes move it. A
  position whose write failed is never retried when its last close is older than that (`FailedWriteIsLost`), and a
  position partly closed earlier is rewritten with the money of its later deals alone (`RerunSpoilsTheBooks`).
  `ReconnectsExactly` is the exact condition over any series of reconnects, `RetryExactly` and
  `RetryConvergesExactly` the ones for a failed write, `RerunExactly` the one for a single position.
- **cTrader rows.** A partial close delivered after the full one clears the exit date. `CtraderClosedExactly` says
  when a row is closed after any sequence of writes.
- **Floating updates.** For an unknown account size or a risk of zero a floating update clears a stored percentage
  or R-multiple that no later finalization computes again (`FinalizationForgets` has the exact condition,
  `FloatLosesPercentage` an example).
- **Reconnect by fingerprint.** A completed connect computes the fingerprint again, so the worker's own token
  refreshes are not taken for outside changes (`ConnectSettles`). Only a connect that is superseded after a refresh,
  fails after it, or is still under way leaves the old fingerprint; the next reconcile then replaces the session,
  and in no other case does it replace one whose rows are the worker's own (`SelfReconnectExactly`, `MovedBy`). A
  change of owner or account size goes unnoticed (`ReplacedExactly`).
- **Minute chunks.** A day's file that appears between the answer to the fetch and the look at the clock is
  stored as a closed day (`StoredIsExpected`, `OvertakenDayIsEmpty`); month and year chunks look at the clock first
  and are never short.

## Assumptions

- Billing: an operation on one row runs to completion from the row's current contents, a 404 means absent and
  only a call that names an account answers it (a lookup or a create never does), and the cloud never reuses an
  account id. `TerminalAttempts` needs none of this and interleaves freely; for one cloud account per row it takes
  the name listing as exact, and a create as having taken effect, or never to, once its call settles; one whose
  call a crash cuts off has taken effect by the lookup after the restart, or never does.
- A closed connection emits no events, constructors do not throw, and one process runs at a time.
- Single-row database writes are atomic; a trade row is deleted by nobody; time is a monotone clock and timers
  do not fire early.
- A token write is stamped later than the latest active stamp the last probe saw.
- A day's archive file never changes once present, and appears before the publish margin is over or never. Where
  folds of days are concatenated (`ChunkIsDayFolds`) the candles of a file lie in its own day.
- The broker's deal list answers with all deals executed in the window asked for (at most `BACKFILL_MAX_ROWS`), and a
  position closed by then has no later deal. The clock is past the lookback of ninety days.
- A trade row belongs to one position: position ids do not repeat across a user's accounts of one broker.

## Model

| member | source | states |
|---|---|---|
| TerminalBilling.OpenStrandsIff | src/metaapi/connection-manager.service.ts:218-355 | from any tracked state an open strands the row's terminal if and only if it gives up blind (no stored id, and the lookup failed, the create's answer was lost, or the id was not saved); every other row keeps what it had |
| TerminalBilling.TeardownIsSafe | src/metaapi/connection-manager.service.ts:449-482 | a teardown hides the row only once the cloud holds no account of it, whatever its calls answer |
| TerminalBilling.TeardownExactly | src/metaapi/connection-manager.service.ts:449-533 | a teardown hides the row and forgets its id if and only if the account is confirmed gone and the row saved, and leaves no account if and only if the calls got as far as deleting it; when every call succeeds it does both, and otherwise the row stays to be torn down again |
| TerminalBilling.DestroyExactly | src/metaapi/connection-manager.service.ts:488-533 | destroying an account deletes it, stops its meter and answers true, each exactly when the calls allow it, the probe after a late error included; no other account is touched |
| TerminalBilling.FailureExactly | src/metaapi/connection-manager.service.ts:535-660 | a failure deletes a known account, hides the row and moves the backoff exactly as its kind and the attempts left say; a rejected token changes nothing |
| TerminalBilling.VanishedExactly | src/metaapi/connection-manager.service.ts:552-588 | a vanished account has its id cleared for a fresh create, or its row hidden once the attempts are spent |
| TerminalBilling.OpenExactly | src/metaapi/connection-manager.service.ts:218-355 | an open that gets hold of the account, connects and saves the row makes it healthy with its terminal running, its id stored and no backoff; nothing else makes a connecting row healthy |
| TerminalBilling.NeverStrandedIff | src/metaapi/connection-manager.service.ts:449-660 | over every run, no hidden row ever has a cloud account left if and only if no attempt of the run gives up blind |
| TerminalBilling.EveryTerminalIsStored | src/metaapi/connection-manager.service.ts:384-447 | with create and persist as one step, in every reachable state every cloud account named for a row has the id the row stores |
| TerminalBilling.RejectedTokenChangesNothing | src/metaapi/connection-manager.service.ts:488-660 | while every call answers 401 the worker's steps are idle: a run, with whatever the app does in between, is the run of the app's own events and the deletions made outside |
| TerminalBilling.LostCreateStrandsTerminal | src/metaapi/connection-manager.service.ts:535-660 | a concrete open, at the last attempt of an initial connect, that hides the row while its new terminal runs on |
| TerminalBilling.InformedFailureIsSafe | src/metaapi/connection-manager.service.ts:535-660 | the failure path never strands a row whose terminal's id it was handed |
| TerminalBilling.BlindFailure | src/metaapi/connection-manager.service.ts:535-660 | without the id, it strands the row's terminal exactly when it gives up |
| TerminalBilling.BillingManager.DestroyCloudAccount | src/metaapi/connection-manager.service.ts:488-533 | undeploy, remove, verify: the cloud afterwards and the answer are those of the specification |
| TerminalBilling.BillingManager.HandleOpenFailure | src/metaapi/connection-manager.service.ts:535-660 | the four-way failure handling, row, backoff and cloud |
| TerminalBilling.BillingManager.FindByName | src/metaapi/connection-manager.service.ts:395-417 | the exact-name lookup finds an account of the row, or there is none |
| TerminalBilling.BillingManager.EnsureCloudAccount | src/metaapi/connection-manager.service.ts:384-435 | lookup before create, then persist; on failure the id its caller gets to know |
| TerminalBilling.BillingManager.OpenAccount | src/metaapi/connection-manager.service.ts:218-355 | one whole open of an account |
| TerminalBilling.BillingManager.TeardownAccount | src/metaapi/connection-manager.service.ts:449-482 | one whole teardown of an account |
| MetaApiErrors.FatalExactly | src/metaapi/client.ts:28-78 | an error condemns an account exactly when it names a fatal code and is neither a 401 nor a 404; 401 and 404 are told by the status alone |
| TerminalAttempts.OneFlightPerAccount | src/metaapi/connection-manager.service.ts:218-236 | under any interleaving at most one open per account is in flight, and its session slot is absent or holds its own generation |
| TerminalAttempts.OpenBegins | src/metaapi/connection-manager.service.ts:218-240 | an account without a session and with no open in flight is opened, under a generation of its own |
| TerminalAttempts.GoesOn | src/metaapi/connection-manager.service.ts:240-345 | while nobody has taken its place an attempt goes from lookup or stored id to the stream, adopting an existing account, creating one otherwise |
| TerminalAttempts.Publishes | src/metaapi/connection-manager.service.ts:296-314 | an attempt nobody has superseded publishes the session with its close handle |
| TerminalAttempts.AbandonedEnds | src/metaapi/connection-manager.service.ts:240-303 | once somebody has, it ends at its next check, publishes nothing and closes what it opened |
| TerminalAttempts.FailureFrees | src/metaapi/connection-manager.service.ts:332-355 | a failure frees the account's slot at once, so that it can be opened again |
| TerminalAttempts.CatchEnds | src/metaapi/connection-manager.service.ts:332-355 | the catch block closes the stream, then the RPC connection, and ends, whatever the closes answer |
| TerminalAttempts.EndedAttemptsLeaveNothing | src/metaapi/connection-manager.service.ts:218-369 | when an attempt has ended, every RPC and stream connection it opened is closed, owned by the stored session, or being closed; the one exception is an RPC connection whose close handle's stream close rejected |
| TerminalAttempts.LiveHandleNeverOverwritten | src/metaapi/connection-manager.service.ts:107-128 | no step overwrites a live close handle: it leaves the map only by being run, at the end of a shutdown that ran it, or when its own attempt's success write fails and the catch closes the stream itself |
| TerminalAttempts.HandleSettles | src/metaapi/connection-manager.service.ts:304-313 | a close handle that has run closed the RPC connection, or left it open for good, and touched no other |
| TerminalAttempts.OneCloudAccountPerRow | src/metaapi/connection-manager.service.ts:384-435 | at most one cloud account per trading account in every run, crashes between create and persist and overlapping teardowns included |
| TerminalAttempts.DroppedHasCause | src/metaapi/connection-manager.service.ts:91-98 | a connection is left to nobody only if its close handle's stream close rejected in that run |
| TerminalAttempts.LeakStep | src/metaapi/connection-manager.service.ts:300-355 | one step newly leaves a connection open with nobody to close it if and only if its RPC is open, no session owns it, and either its last close handle's stream close rejects after the attempt has ended, or the attempt returns from its success write after such a rejection |
| TerminalAttempts.LeakedExactly | src/metaapi/connection-manager.service.ts:218-369 | over every run, a connection is open with no attempt, session or close handle left to close it if and only if such a step lost it and no crash has followed |
| TerminalAttempts.NoRejectionNoLeak | src/metaapi/connection-manager.service.ts:218-369 | without a rejection of its close handle an ended attempt with no session has closed, or is closing, everything |
| TerminalAttempts.RejectedCloseLeaksRpc | src/metaapi/connection-manager.service.ts:300-355 | a concrete run that ends with an open RPC connection and nobody to close it |
| TerminalAttempts.ConnectionManager.OpenAccount | src/metaapi/connection-manager.service.ts:218-240 | the single-flight guard, generation and slot of a new attempt |
| TerminalAttempts.ConnectionManager.ResumeAttempt | src/metaapi/connection-manager.service.ts:240-355 | an attempt from one await to the next, with its staleness checks and its catch block |
| TerminalAttempts.ConnectionManager.CloseSession | src/metaapi/connection-manager.service.ts:107-128 | reconcile takes a session out of the map and starts its close handle |
| TerminalAttempts.ConnectionManager.OnModuleDestroy | src/metaapi/connection-manager.service.ts:91-98 | shutdown starts every close handle |
| CtraderSockets.OneOpenSocket | src/ctrader/ctrader-connection-manager.ts:123-233 | in every reachable state an environment has at most one connection that was not closed, and none once stopped |
| CtraderSockets.NeverStuck | src/ctrader/ctrader-connection-manager.ts:307-331 | while the manager runs, a tracked session has a pending timer and no connection, or an open connection of its generation that is live or being connected; a session that `start` sets after the shutdown has neither |
| CtraderSockets.ConnectEnds | src/ctrader/ctrader-connection-manager.ts:150-222 | an accepted attempt makes its connection live and resets the backoff; a failed one is closed and its session reconnects; neither stays in flight |
| CtraderSockets.LostReconnects | src/ctrader/ctrader-connection-manager.ts:224-233 | an open connection of the current generation that is lost is closed and its session reconnects |
| CtraderSockets.TimerDials | src/ctrader/ctrader-connection-manager.ts:307-331 | the timer dials a new connection of the next generation |
| CtraderSockets.AppearDials | src/ctrader/ctrader-connection-manager.ts:84-121 | a new environment dials at once; after the shutdown reconcile does nothing, and `start` leaves a session that dials nobody |
| CtraderSockets.ChangedReconnects | src/ctrader/ctrader-connection-manager.ts:424-441 | a changed account set supersedes the attempt under way, closes the connection and schedules the reconnect |
| CtraderSockets.EmptiedForgets | src/ctrader/ctrader-connection-manager.ts:410-423 | an environment without accounts is forgotten, with its timer and its connection, and its attempt superseded |
| CtraderSockets.ShutdownClears | src/ctrader/ctrader-connection-manager.ts:68-82 | the shutdown closes every connection, clears the timer of every session and forgets them all |
| CtraderSockets.ShutdownIsFinal | src/ctrader/ctrader-connection-manager.ts:68-82 | from the shutdown on, whatever is still under way, every connection is closed and no session has one or waits for one |
| CtraderSockets.CtraderConnectionManager.Start | src/ctrader/ctrader-connection-manager.ts:84-121 | `start` after its load, stopped meanwhile or not |
| CtraderSockets.CtraderConnectionManager.ConnectEnv | src/ctrader/ctrader-connection-manager.ts:123-150 | a connect attempt up to its first await |
| CtraderSockets.CtraderConnectionManager.ResumeConnect | src/ctrader/ctrader-connection-manager.ts:150-222 | a connect attempt from await to await, with its superseded checks |
| CtraderSockets.CtraderConnectionManager.ConnectionLost | src/ctrader/ctrader-connection-manager.ts:224-233 | a loss closes the current socket and schedules one reconnect; a stale one is ignored |
| CtraderSockets.CtraderConnectionManager.ReconcileEnv | src/ctrader/ctrader-connection-manager.ts:375-443 | what reconcile does to the sockets of one environment |
| CtraderSockets.CtraderConnectionManager.OnModuleDestroy | src/ctrader/ctrader-connection-manager.ts:68-82 | shutdown closes every socket and clears every timer |
| CtraderSockets.CtraderConnection.Fail | src/ctrader/ctrader-connection.ts:119-137 | a connection signals its loss at most once, and not after close |
| CtraderSockets.CtraderConnection.Close | src/ctrader/ctrader-connection.ts:70-78 | close clears the timers and silences the loss signal |
| Signatures.SameSignatureSameSet | src/ctrader/ctrader-connection-manager.ts:458-463 | equal fingerprints if and only if equal sets of (ctid, token, expiry or 0), in any order, for distinct ctids and separator-free token ids |
| Signatures.SeparatorsMatter | src/ctrader/ctrader-connection-manager.ts:458-463 | two different sets with one fingerprint, once a token id holds the separators |
| CtraderRouting.KeepsOneFreshest | src/ctrader/ctrader-connection-manager.ts:587-616 | of the accounts that share a ctid in an environment exactly one is kept, a freshest one, and no ctid is lost |
| CtraderRouting.WinnerIsFirst | src/ctrader/ctrader-connection-manager.ts:601-607 | of equally fresh accounts the first listed is kept |
| CtraderRouting.DedupeByCtid | src/ctrader/ctrader-connection-manager.ts:587-611 | grouping and ranking compute that selection |
| CtraderRouting.ReconcileConverges | src/ctrader/ctrader-connection-manager.ts:375-443 | afterwards the sessions are exactly the environments with accounts, each under the fingerprint of its loaded set; applying the set again changes nothing |
| CtraderRouting.ReplacedExactly | src/ctrader/ctrader-connection-manager.ts:424-441 | a session is replaced if and only if the loaded set of (ctid, token, expiry) differs from the set its fingerprint was last computed from |
| CtraderRouting.RoutedExactly | src/ctrader/ctrader-connection-manager.ts:375-455 | after a reconcile a ctid routes to an account with a given token if and only if that row was loaded |
| CtraderRouting.RoutingIsDerived | src/ctrader/ctrader-connection-manager.ts:445-455 | through any reconciles, refreshes in place and completed connects the index is the map derived from the sessions' accounts |
| CtraderRouting.RefreshKeeps | src/ctrader/ctrader-connection-manager.ts:466-502 | a refresh of a shared account object keeps sessions and index in agreement; the fingerprint stays that of the set it was computed from |
| CtraderRouting.ResyncKeeps | src/ctrader/ctrader-connection-manager.ts:203-208 | computing the fingerprint again at the end of a connect keeps sessions, fingerprints and index in agreement |
| CtraderRouting.ConnectSettles | src/ctrader/ctrader-connection-manager.ts:203-208 | after a completed connect, through any reconciles and connects without another refresh, rows that carry the refreshed expiries leave the session alone |
| CtraderRouting.SelfReconnectExactly | src/ctrader/ctrader-connection-manager.ts:203-208 | with rows equal to the worker's own accounts an application replaces the session if and only if an expiry has moved since the fingerprint was last computed |
| CtraderRouting.MovedBy | src/ctrader/ctrader-connection-manager.ts:466-502 | an agreeing fingerprint falls behind only by a refresh of one of the session's accounts to another expiry |
| CtraderRouting.MovedExpiryReconnects | src/ctrader/ctrader-connection-manager.ts:424-441 | a row with another expiry than the one the fingerprint was computed from replaces the session |
| CtraderRouting.AccountPool.SyncSignature | src/ctrader/ctrader-connection-manager.ts:203-208 | the fingerprint, and nothing else, is computed again from the accounts as they are |
| CtraderRouting.AccountPool.ApplyEnvironment | src/ctrader/ctrader-connection-manager.ts:385-441 | one environment's turn: sessions and index afterwards |
| CtraderRouting.AccountPool.SetRouting | src/ctrader/ctrader-connection-manager.ts:445-449 | the loop that enters accounts into the index |
| CtraderRouting.AccountPool.ClearRouting | src/ctrader/ctrader-connection-manager.ts:451-455 | the loop that removes them |
| CtraderRouting.AccountPool.ReconcileRows | src/ctrader/ctrader-connection-manager.ts:358-443 | drop duplicates, then apply to both environments |
| TokenProbe.SkipMeansUnchanged | src/ctrader/ctrader-connection-manager.ts:345-356 | an equal (count, latest stamp) means the set of active rows and their contents is unchanged since the last probe |
| TokenProbe.SkipHidesNothingIff | src/ctrader/ctrader-connection-manager.ts:338-366 | in every run a skipped reload leaves the sessions up to date if and only if the last reload was in time: it succeeded while the active set was the one its tick had probed, or it failed, or is pending, and at its tick the sessions already held the active set |
| TokenProbe.SkipIsSound | src/ctrader/ctrader-connection-manager.ts:338-366 | in runs whose loads succeed and read what their probe saw, a skip never hides a change |
| TokenProbe.LateRowIsKept | src/ctrader/ctrader-connection-manager.ts:356-363 | a concrete run in which a deactivated row is served on |
| TokenProbe.FailedLoadIsNotRetried | src/ctrader/ctrader-connection-manager.ts:356-365 | after a failed reload, in any run, every tick skips until a row is written or deleted |
| TokenProbe.Reconciler.Probed | src/ctrader/ctrader-connection-manager.ts:344-356 | the decision to reload; a skip implies the active set is the probed one |
| SerialChains.OneAtATime | src/ctrader/ctrader-trade-writer.ts:72-85 | tasks of one key run one at a time in the order submitted, under every interleaving |
| SerialChains.NoLostUpdate | src/tradelocker/trade-writer.service.ts:64-77 | whatever the interleaving, a row is what the calls whose upsert took effect in the run would make of it one after the other, in the order they were made |
| SerialChains.AppliedExactly | src/ctrader/ctrader-trade-writer.ts:72-85 | a task counts as applied if and only if the run holds its upsert taking effect |
| SerialChains.RunsThrough | src/ctrader/ctrader-trade-writer.ts:72-85 | the first task in line, begun, read and written, stores what it computes from the row as it is, touches no other row, settles, and drops the chain if nobody has queued behind it |
| SerialChains.ChainsDrain | src/metaapi/trade-writer.service.ts:49-62 | once all tasks of a key have settled the map holds nothing for it |
| SerialChains.NeverBlocked | src/ctrader/ctrader-trade-writer.ts:72-85 | a failed task blocks nobody: the first unsettled task of a key can move |
| SerialChains.SerialWriter.Serialize | src/ctrader/ctrader-trade-writer.ts:72-85 | a new task is chained behind the key's tail, which it becomes |
| SerialChains.SerialWriter.CleanupTask | src/ctrader/ctrader-trade-writer.ts:76-82 | a settled tail removes the key only if it is still the tail |
| TradeWriters.ClosedStaysClosed | src/tradelocker/trade-writer.service.ts:79-211 | over any writes of TradeLocker or MetaApi a set exit date is never cleared, and only closing writes change pnl afterwards |
| TradeWriters.OpenRowFloats | src/metaapi/trade-writer.service.ts:161-195 | over any opening and floating writes an open row shows the last floating amount and its realized money does not move |
| TradeWriters.FloatExactly | src/metaapi/trade-writer.service.ts:161-195 | one floating update sets the amount, its percentage and its R-multiple, and leaves entry data and realized money alone; a closed or missing row is left as it is |
| TradeWriters.OpenExactly | src/metaapi/trade-writer.service.ts:64-102 | an opening write sets symbol, side, quantity and entry date and nothing else; a new row has nothing but these and the default risk |
| TradeWriters.CtraderClosedExactly | src/ctrader/ctrader-trade-writer.ts:130-311 | after any sequence of cTrader writes a row is closed if and only if the last of its closing deals and closed backfills closed it for good; with none of them, if it was closed before |
| TradeWriters.CtraderStaysClosed | src/ctrader/ctrader-trade-writer.ts:130-311 | a closed cTrader row stays closed through any writes without a later partial close |
| TradeWriters.RiskSurvives | src/metaapi/trade-writer.service.ts:64-195 | a risk percentage the user set between tasks survives every write of every broker |
| TradeWriters.FinalizationForgets | src/tradelocker/trade-writer.service.ts:79-211 | after any opens, floating updates and finalizations one more finalization leaves the row it would have left straight away, if and only if no update that came before the first finalization cleared a stored percentage or R-multiple that cannot be computed again |
| TradeWriters.FloatLosesPercentage | src/metaapi/trade-writer.service.ts:161-195 | a stored percentage of an account of unknown size, lost to one floating update whatever closes the trade |
| TradeWriters.SameFillSameRow | src/metaapi/trade-writer.service.ts:109-113 | the same fill reads the same whichever terminal imported it: on any row MetaApi writes what cTrader would but for refreshing quantity and entry date, and TradeLocker what MetaApi would if and only if its net figure and the sum of the amounts both round to the gross |
| TradeWriters.CtraderTradeWriter.WriteOpen | src/ctrader/ctrader-trade-writer.ts:130-160 | create the row, or refresh its entry data only |
| TradeWriters.CtraderTradeWriter.AddClose | src/ctrader/ctrader-trade-writer.ts:162-238 | add one closing deal to what the row has booked |
| TradeWriters.CtraderTradeWriter.BackfillPositionRow | src/ctrader/ctrader-trade-writer.ts:240-311 | set absolute realized values, or keep the open row |
| TradeWriters.PositionWriter.WriteClose | src/tradelocker/trade-writer.service.ts:107-172 | the realized columns; net as profit for TradeLocker, gross for MetaApi |
| TradeWriters.PositionWriter.WriteFloating | src/metaapi/trade-writer.service.ts:161-195 | update-only floating pnl that never touches a closed row |
| Metrics.RoundMoneyNearest | src/trades/metrics.ts:8-10 | rounding gives the nearest cent and is idempotent |
| Metrics.PercentNearest | src/trades/metrics.ts:37-49 | the profit percentage is the exact one to the nearest 0.0001 |
| Metrics.BreakEvenExactly | src/trades/metrics.ts:20-35 | a trade breaks even exactly within a thousandth of the account size, and otherwise has the sign of its pnl |
| Metrics.RrMeansProfit | src/trades/metrics.ts:54-87 | the R-multiple times the money at risk is the profit |
| CtraderBackfill.IncrementalEqualsBatch | src/ctrader/ctrader-trade-writer.ts:162-311 | delivering the closing deals one by one in any order, the last event closing for good, leaves the money, result and R of one backfill from the same deals |
| CtraderBackfill.SameExitDate | src/ctrader/backfill.service.ts:249-280 | and the same exit date if and only if no deal was executed after the one delivered last |
| CtraderBackfill.BackfillForgets | src/ctrader/ctrader-trade-writer.ts:240-311 | a backfill of the same deals is idempotent and sets money, result and exit date whatever row it finds; two rows get the same risk if and only if they had it, and the same percentage and R-multiple if and only if these can be computed or were the same before |
| CtraderBackfill.BackfillConverges | src/ctrader/ctrader-trade-writer.ts:57-69 | for any row, none included, and any account, a backfill of the same deals after any cTrader writes leaves the money, percentage, R-multiple, result and exit date of one straight away |
| CtraderBackfill.RerunExactly | src/ctrader/ctrader-trade-writer.ts:57-69 | rewritten from a later window, after any cTrader writes in between, a closed position keeps its money, percentage, R-multiple, result and exit date if and only if the closing deals the window no longer shows add up to nothing in each amount |
| CtraderBackfill.OpeningOutsideWindow | src/ctrader/backfill.service.ts:249-280 | rebuilt from any window that shows a closing deal of it, a position has the symbol, side and exit date of its whole history, the money if and only if the hidden closing deals add up to nothing, the entry while its first opening deal is shown, and otherwise the quantity if and only if the hidden deals closed no volume |
| CtraderBackfill.ConcurrentDealsAddUp | src/ctrader/ctrader-trade-writer.ts:72-85 | for any interleaving of concurrent opening writes and closing deals, some failing, the row has booked exactly the sum over the deals whose upsert took effect in the run, and nothing if none did |
| BackfillRun.ClosedExactly | src/ctrader/backfill.service.ts:97-152 | with the open set known a run writes as closed exactly the positions absent from it that have a closing deal, and as open exactly the open ones |
| BackfillRun.FallbackClosesExactly | src/ctrader/backfill.service.ts:284-310 | without it, as closed exactly those whose opening deal is in the window and whose closing volume covers it |
| BackfillRun.OpenWritesDescribe | src/ctrader/backfill.service.ts:284-329 | what a run writes as open is described by the last record of the open position, or without the open set by the first opening deal, and carries no exit date |
| BackfillRun.ClosedDescribes | src/ctrader/backfill.service.ts:249-280 | a position rebuilt as closed is entered as its first opening deal says; without one its closing deals give symbol, opposite side, volume and time |
| BackfillRun.NoPositionTwice | src/ctrader/backfill.service.ts:114-146 | a run writes no position twice |
| BackfillRun.RetryConverges | src/ctrader/backfill.service.ts:97-167 | a run repeated over the same deals after one whose writes partly failed leaves the table of a run that never failed; no closed trade is reopened, no other trade touched |
| BackfillWindow.RunBooksExactly | src/ctrader/backfill.service.ts:97-186 | a run, its window computed from the table it finds, leaves a closed position with the money, result and exit date of its whole history if and only if it writes it and its window hides none of its money, or does not write it and they were right before |
| BackfillWindow.ReconnectsExactly | src/ctrader/ctrader-trade-writer.ts:57-69 | the same over any series of reconnects, with any failed writes and anything happening to other positions: it depends on the window of the last run that wrote the position |
| BackfillWindow.RetryExactly | src/ctrader/backfill.service.ts:154-186 | the next run makes up for a failed write if and only if the position's last close is not older than fifteen days before the newest exit date then stored (or the lookback) and its closing deals that are older add up to nothing |
| BackfillWindow.RetryConvergesExactly | src/ctrader/backfill.service.ts:97-186 | a partly failed run and the next one leave a position as the run would have without failures if and only if both windows hide the same money of it; or, where the next run does not write it, if its first write did not fail or had nothing to change |
| BackfillWindow.FailedWriteIsLost | src/ctrader/backfill.service.ts:169-186 | a concrete history in which a failed write is never made up for |
| BackfillWindow.RerunSpoilsTheBooks | src/ctrader/backfill.service.ts:169-186 | a concrete history in which the second reconnect overwrites the right money of a row with a part of it |
| BackfillWindow.WindowShows | src/ctrader/backfill.service.ts:214-247 | what the window shows of a position all executed by then is its deals from the watermark on |
| BackfillWindow.BackfillAccount | src/ctrader/backfill.service.ts:97-186 | the watermark, the fetch and the run |
| BackfillRun.BackfillService.Run | src/ctrader/backfill.service.ts:97-167 | the grouping and writing loops perform exactly that plan, less the failed writes, and count what was written |
| Grouping.Group | src/ctrader/backfill.service.ts:237-245 | the bucket loop: keys in order of first appearance, each with its elements in order |
| Grouping.MembersOfMembers | src/metaapi/deal-aggregator.ts:34-41 | restricting a list to one key leaves that key's group as it was and no other |
| DealAggregator.OnePositionAlone | src/metaapi/sync-listener.ts:109-121 | aggregating one position's deals alone gives just what the whole history gives for it |
| DealAggregator.EachPositionOnce | src/metaapi/deal-aggregator.ts:46-84 | each position appears at most once |
| DealAggregator.ReportedExactly | src/metaapi/deal-aggregator.ts:29-86 | straight from the deals in any order: a position is reported if and only if its earliest opening deal has a symbol and a volume and the clamp does not close it, with that deal's description, the time of its latest closing deal, and the sum over all its deals after the clamp that are no balance operations |
| DealAggregator.ClampConserves | src/metaapi/deal-aggregator.ts:57-71 | clamped money plus the money at or before the clamp is the unclamped money; a position is missing if and only if it is closed with no closing deal after the clamp |
| DealAggregator.ExitIsLastClose | src/metaapi/deal-aggregator.ts:53-55 | the exit date is the time of the latest closing deal; none if and only if the position is open or never closed |
| DealAggregator.DescribedByItsDeals | src/metaapi/deal-aggregator.ts:46-83 | symbol, side, quantity and entry date are those of an earliest opening deal; without a clamp the money is the sum over the whole group |
| DealAggregator.AggregateDeals | src/metaapi/deal-aggregator.ts:29-86 | the loops compute the specification |
| TradeLockerSessions.OneConnectionPerAccount | src/tradelocker/connection-manager.service.ts:206-346 | through any reconnects, replacements and interleavings an account has at most one unclosed connection, of its tracked session, with no timer pending; after shutdown none |
| TradeLockerSessions.NeverForgotten | src/tradelocker/connection-manager.service.ts:707-742 | until shutdown a tracked session is attempting, connected, waiting on a timer, or parked: no token, fatal subscribe, or fatal auth already stamped |
| TradeLockerSessions.AnswerExactly | src/tradelocker/connection-manager.service.ts:228-346 | an answer to the current attempt schedules a reconnect if and only if it is a passing failure, parks the session if and only if it is a final one, and only those and the accepted subscription end the attempt |
| TradeLockerSessions.AnswerConnects | src/tradelocker/connection-manager.service.ts:228-346 | its connection is made when the login is granted, kept while the socket opens and subscribes, and closed and forgotten by any other answer |
| TradeLockerSessions.SupersededEnds | src/tradelocker/connection-manager.service.ts:228-346 | a superseded attempt ends at its next answer, closes what it opened and leaves the sessions alone |
| TradeLockerSessions.LostReconnects | src/tradelocker/connection-manager.service.ts:707-718 | the loss of an open connection closes it and schedules a reconnect of its session |
| TradeLockerSessions.TimerReconnects | src/tradelocker/connection-manager.service.ts:720-742 | the timer starts an attempt of the next generation |
| TradeLockerSessions.StartConnects | src/tradelocker/connection-manager.service.ts:188-206 | a started account is tracked by a fresh session with its first attempt under way |
| TradeLockerSessions.StopForgets | src/tradelocker/connection-manager.service.ts:806-820 | a stopped account is forgotten, its connections closed, its timer cleared and its attempts superseded |
| TradeLockerSessions.ShutdownIsFinal | src/tradelocker/connection-manager.service.ts:136-152 | from the shutdown on no connection is open and no timer runs, whatever is still under way |
| TradeLockerSessions.AccountManager.ContinueConnect | src/tradelocker/connection-manager.service.ts:228-346 | a connect attempt from await to await, failures included |
| TradeLockerSessions.AccountManager.HandleLost | src/tradelocker/connection-manager.service.ts:707-718 | a loss closes the current connection and schedules one reconnect; a stale one is ignored |
| TradeLockerSessions.AccountManager.StopAccount | src/tradelocker/connection-manager.service.ts:806-820 | a stopped session is superseded, closed and forgotten |
| TradeLockerSessions.AccountManager.ReconnectTimer | src/tradelocker/connection-manager.service.ts:720-742 | the timer starts an attempt of the next generation |
| TradeLockerSessions.AccountManager.OnApplicationShutdown | src/tradelocker/connection-manager.service.ts:136-152 | shutdown closes every held connection and clears every timer |
| CloseFinalizer.CacheSound | src/tradelocker/connection-manager.service.ts:541-608 | a position in the cache of finalized closes has a closed row |
| CloseFinalizer.OneFinalizeEach | src/tradelocker/connection-manager.service.ts:454-486 | a position is claimed exactly while one finalize of it is in flight, and never two are |
| CloseFinalizer.AnnouncedOnce | src/tradelocker/connection-manager.service.ts:471-482 | a close is announced at most once per process, and only once its row is closed |
| CloseFinalizer.AnnouncedExactly | src/tradelocker/connection-manager.service.ts:466-608 | in every run the notices are exactly the closes a finalize wrote successfully, in that order, and the closed rows exactly those there were and those written |
| CloseFinalizer.TrueIsClosed | src/tradelocker/connection-manager.service.ts:454-486 | in every run a finalize that answers true leaves a closed row |
| CloseFinalizer.FoundIsWritten | src/tradelocker/connection-manager.service.ts:466-486 | a close whose row is found ends closed, cached, announced, out of the queue and unclaimed |
| CloseFinalizer.MissIsQueued | src/tradelocker/connection-manager.service.ts:489-500 | a live close whose row the report does not have yet is in the queue once its caller resumes, whatever happens in between |
| CloseFinalizer.FailureIsNotQueued | src/tradelocker/connection-manager.service.ts:433-500 | one whose login, fetch or write fails is not: the backfill is left to find it |
| CloseFinalizer.CloseBegins | src/tradelocker/connection-manager.service.ts:454-466 | a live close is fetched if and only if it is neither cached nor claimed |
| CloseFinalizer.RetryBegins | src/tradelocker/connection-manager.service.ts:503-522 | a turn of the retry loop drops a close whose session is gone, passes over a busy one and tries any other again |
| CloseFinalizer.AttemptsExactly | src/tradelocker/connection-manager.service.ts:503-533 | over every run the attempts of a queued close are its failed retries |
| CloseFinalizer.NoClosePassedOver | src/tradelocker/connection-manager.service.ts:541-580 | a backfill passes over a close only if it is cached or being finalized, and stops short only at a failed write of its own |
| CloseFinalizer.BackfillWritesNew | src/tradelocker/connection-manager.service.ts:541-580 | and writes none that is cached or being finalized |
| CloseFinalizer.RetriesBounded | src/tradelocker/connection-manager.service.ts:503-533 | a queued close has been retried fewer than twelve times |
| CloseFinalizer.LeavesForAReason | src/tradelocker/connection-manager.service.ts:489-533 | a queued close leaves the queue only when finalized, exhausted, its session replaced, or at shutdown |
| CloseFinalizer.CloseManager.HandleClose | src/tradelocker/connection-manager.service.ts:433-470 | the guards of finalizeClose, claimed without an await in between |
| CloseFinalizer.CloseManager.ContinueFinalize | src/tradelocker/connection-manager.service.ts:466-486 | finalizeClose from await to await, with its finally |
| CloseFinalizer.CloseManager.ResumeCaller | src/tradelocker/connection-manager.service.ts:489-533 | queueing after a miss; counting and dropping after a retry |
| CloseFinalizer.CloseManager.RetryPendingClose | src/tradelocker/connection-manager.service.ts:503-520 | one turn of the retry loop over its snapshot |
| CloseFinalizer.CloseManager.ContinueBackfill | src/tradelocker/connection-manager.service.ts:541-608 | the backfill from await to await, priming included |
| CloseHistory.EarlyOutFindsTheSame | src/tradelocker/history.ts:104-165 | stopping at the page of the wanted position finds the trade the full walk would have found |
| CloseHistory.FewerPagesIsPrefix | src/tradelocker/history.ts:104-165 | a walk bounded to fewer pages returns the newest part of a longer one |
| CloseHistory.WalkExactly | src/tradelocker/history.ts:66-165 | a walk that succeeds returns exactly the trades of the rows on its pages that name a position and a close time: none dropped, none made up |
| CloseHistory.WalkRealized | src/tradelocker/history.ts:66-165 | every row on the walked pages that names a position and a close time is described by a returned trade, and every trade describes such a row: its position, times, amounts, and the quantity that was both opened and closed |
| CloseHistory.WalkSucceedsExactly | src/tradelocker/history.ts:104-165 | a walk fails if and only if one of its pages is answered with an error or an unrecognized body |
| CloseHistory.PageExactly | src/tradelocker/history.ts:169-188 | the answer for a page is the first that is no 429, or the third |
| CloseHistory.FetchClosedTrades | src/tradelocker/history.ts:104-187 | the loops compute the walk, in at most three requests a page |
| CloseHistory.GetPage | src/tradelocker/history.ts:169-188 | HTTP 429 is retried at most twice |
| Pacer.InOrderAndSpaced | src/tradelocker/connection-manager.service.ts:987-1000 | permits are given in call order, never before the call, at least the interval apart |
| Pacer.EveryCallQueues | src/tradelocker/connection-manager.service.ts:987-1000 | no caller is forgotten: each waits or has its permit |
| Pacer.FivePerTenSeconds | src/tradelocker/constants.ts:82-86 | every ten-second window holds at most five permits |
| Pacer.NeverStuck | src/tradelocker/connection-manager.service.ts:987-1000 | while a caller waits, the next permit is given at the latest one interval after the last |
| Pacer.RestPacer.BeginNext | src/tradelocker/connection-manager.service.ts:990-997 | the next caller sleeps out the interval or passes |
| CandleFold.AggregateCandles | src/candles/aggregate.ts:9-35 | the loop computes one bar for each maximal run of candles in a bucket |
| CandleFold.Extremes | src/candles/aggregate.ts:27-30 | a bar's high and low bound its candles and are attained |
| CandleFold.TwoStepFold | src/candles/aggregate.ts:9-35 | folding to s1 and then to s2, s1 dividing s2, has the times and prices of folding to s2 at once, for any input; volumes differ by at most (k + 1) * 0.00005 for k middle candles |
| CandleFold.FoldConcat | src/candles/aggregate.ts:20-33 | the fold distributes over concatenation at bucket boundaries |
| CandleFold.FoldByDay | src/candles/ingest-worker.service.ts:241-244 | folding several days at once concatenates the folds of the days |
| CandleFold.SortedFold | src/candles/aggregate.ts:9-35 | on sorted candles the bars increase strictly, one for each bucket that has a candle and no other |
| Calendar.NextMonthIsNext | src/candles/buckets.ts:9-12 | the first month start after a time, by the definitions of section 21.4.1 of ECMA-262 |
| Calendar.NextYearIsNext | src/candles/buckets.ts:14-16 | the first year start after a time |
| Calendar.DaysTile | src/candles/buckets.ts:19-25 | a time lies in a span of whole days if and only if its day is listed |
| Calendar.DayStartsAre | src/candles/buckets.ts:19-25 | for any span the listed days are consecutive, from the day of its start to the last that begins before its end |
| Calendar.DayStartsIn | src/candles/buckets.ts:19-25 | the loop computes the list |
| Calendar.TwelveMonthsMakeAYear | src/candles/buckets.ts:9-25 | twelve month spans concatenate to the year span, of 365 or 366 days |
| IngestSpan.StoredIsExpected | src/candles/ingest-worker.service.ts:204-246 | what a job stores is the fold of every published day of its span, but exactly when a minute job's file came between its fetch and its look at the clock |
| IngestSpan.OvertakenDayIsEmpty | src/candles/ingest-worker.service.ts:216-231 | a concrete minute job whose published day is stored empty |
| IngestSpan.ChunkIsDayFolds | src/candles/ingest-worker.service.ts:233-245 | a month or year chunk is the concatenation of the folds of its days |
| IngestSpan.RefusedExactly | src/candles/ingest-worker.service.ts:204-245 | a job is refused if and only if its symbol is unknown or its resolution is not the minute, the hour or the day; a month is folded to hours and a year to days |
| IngestSpan.WaitsExactly | src/candles/ingest-worker.service.ts:204-235 | a known job is told to wait if and only if its span is younger than the publish margin and, for a minute job, its fetch found no file; it throws if and only if a fetch threw |
| IngestSpan.IngestJob | src/candles/ingest-worker.service.ts:204-246 | the ingest of one job computes its specified outcome |
| IngestQueue.DoneMeansWholeSpan | src/candles/ingest-worker.service.ts:147-182 | through any crashes, retries and reclaims a DONE job has its whole span's chunk; only a minute job overtaken by its file may hold an empty day |
| IngestQueue.AttemptsConserved | src/candles/ingest-worker.service.ts:120-202 | attempts are counted failures plus abandoned claims plus one for the run under way or the successful one; a job fails for good only as unsupported or after its last attempt |
| IngestQueue.RowsFollowTheEvents | src/candles/ingest-worker.service.ts:120-202 | in every run a job's row and chunk are what the answers to its claims, fetches, chunk writes and settles say: an attempt is given back, and no failure counted, exactly for a span not published yet; it fails for good only as unsupported or by a failed ingest or chunk write at the last attempt; and its chunk is what the last chunk write that landed was given |
| IngestQueue.WaitingCostsNothing | src/candles/ingest-worker.service.ts:147-161 | a look at a span not published yet leaves the job pending with its attempts and failures as they were |
| IngestQueue.ClaimsOldest | src/candles/ingest-worker.service.ts:120-145 | a claim takes an oldest job that is pending, or running unheard of for ten minutes, and that the pass has not had, and can while there is one |
| IngestQueue.LateClaimsCount | src/candles/ingest-worker.service.ts:147-182 | once the publish margin of its span is over a job's attempts are never given back: through any crashes and lost writes every further claim ends it, is a counted failure, is abandoned or is still running |
| IngestQueue.ClaimedOncePerPass | src/candles/ingest-worker.service.ts:83-111 | over a whole pass, while time passes and jobs are enqueued, no job is claimed twice, though it may have become runnable again |
| IngestQueue.PassTerminates | src/candles/ingest-worker.service.ts:83-111 | in a pass, however long it takes, the worker takes no more steps than it had left and eight for each job enqueued meanwhile |
| IngestQueue.IngestWorker.ClaimJob | src/candles/ingest-worker.service.ts:120-145 | the guarded claim of the oldest runnable job |
| IngestQueue.IngestWorker.IngestRun | src/candles/ingest-worker.service.ts:147-176 | a run from its claim to the outcome of its ingest |
| IngestQueue.IngestWorker.WriteChunk | src/candles/chunk-writer.service.ts:26-44 | the chunk upsert, whether or not its caller learns of it |
| IngestQueue.IngestWorker.SettleRow | src/candles/ingest-worker.service.ts:184-201 | the row afterwards, or unchanged when the write is lost |
| MapPool.ClaimedOnceInOrder | src/candles/ingest-worker.service.ts:250-266 | under every interleaving of the lanes the calls are made in index order, each index once |
| MapPool.AtMostLimit | src/candles/ingest-worker.service.ts:250-266 | at most `limit` calls are outstanding |
| MapPool.ResultsExactly | src/candles/ingest-worker.service.ts:250-266 | when the map resolves, the output holds every result at its index, if and only if the limit is positive or there was nothing to do |
| MapPool.NeverStalls | src/candles/ingest-worker.service.ts:250-266 | until every result is stored or a call rejected, some call is outstanding |
| MapPool.WorkerPool.Resolved | src/candles/ingest-worker.service.ts:257-262 | a returned call is stored, and its lane claims again before anything else runs |

## Left out

- Network, SDK and socket internals, S3, LZMA, Prisma and Postgres: calls with any outcome, and tables with atomic single-row writes.
- IEEE floating point: exact reals and whole cents; `toFixed(4)` is rounding to the nearest 0.0001.
- Retry delays, backoff lengths, log lines, Sentry, Telegram texts, encryption, environment parsing and zod schemas.
- Object identity: session, connection and account objects are indices into a growing list; `TerminalAttempts` uses generations.
- The id a session slot remembers for teardown while it is open (`rememberAccountId`).
- The destroy of a cloud account whose row has vanished, and `onPositionsReplaced`: neither has a retry or a guard, so there is nothing to keep.
- The instrument table of the candle worker is a parameter; decoding of `.bi5` files and archive key formatting are not modelled.
- Deletion of a job or trade row by others while the worker is using it.
- Live open notifications, floating-pnl throttling and login sharing of TradeLocker: easy members beside the close path.
- Token invalidation pushes on a cTrader socket: their forced expiry is a refresh in place and their loss an ordinary one.
- The MetaApi stream listener beyond its per-position refetch: snapshot events lead to the same writes.
- `resolveWatermark` of the MetaApi listener: its window of deals is an input. The guard against two backfills of one account at a time.
- Liveness beyond "never stuck": that a timer fires or a call settles is left to the runtime.
