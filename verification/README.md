# Seriema: delivery guarantees

Seriema turns incoming events into incidents and notifies people about them by voice call, Telegram and
e-mail. FastAPI handlers (`main.py`), Celery tasks (`worker.py`), Redis keys with a time to live and database
rows share the work, so what the system promises (nobody is called twice, nothing is lost, a broken provider is
left alone) is never settled in one function. This project models that shared state and proves those promises
over every run. `dafny verify dfyconfig.toml` checks it.

## How it is built

- `Prelude`: options and counting over sequences.
- `Guards`: the Redis keys that guard a send (circuit breaker, channel rate limit, Telegram service limit,
  set-if-absent gates, replay lock) as a history of guard operations, each one event. The bounds are theorems
  about every legal history, whatever the order in which the workers' operations fall.
- `Redis.RedisConn`: the connection itself, with its keys changed in place; its invariant says that the keys are
  what a legal history leaves behind.
- `IngestProtocol`, `ReplayLockProtocol`, `CircuitProtocol`, `NoteProtocol`, `LifecycleProtocol`: what is not one
  step, as interleaved transition systems, each with the exact condition under which it does what it should.
- `LateCalls`: the bounds on provider calls when a call may follow its checks after some time.
- `State`, `Delivery`, `Incidents`, `Fanout`, `DeadLetters`, `Retry`, `TelegramText`: the tables, and what each
  transaction does to them, with the laws of each piece.
- `System`: every run of the whole system, one committed transaction at a time, and the theorems about all runs.
- `Reach`, `ReplayWalk`, `ChannelTasks`: what a suppressed message stands for, a replay, and a task with its
  retries, as parts of a run in which any other steps may fall in between.
- `Handlers.Store`: the handlers and tasks as methods over fields updated in place. `Valid` says that the fields
  are the last world of a run of `System`; every method proves it continues that run, so the theorems about
  runs hold of the store.

Time is in milliseconds, the resolution of Redis expiry, and one clock serves the workers and Redis. A key
exists while the clock is before its expiry. Network replies, contacts, rendered texts, the matched rule and the
effective dedupe key of an event are parameters that may take any value.

## What turned out not to hold

Each of these is proved with an input for which it fails, and with the exact condition under which it holds.

- One OPEN incident per dedupe key: if and only if handlers are faster than half the 300 s TTL
  (`SlowHandlersOpenTwo`, `SafeIffUnderHalfTtl`).
- A replay excludes other replays: if and only if it is done within the lock's TTL (`SlowWorkerOverlaps`,
  `LockSafeIffUnderTtl`).
- `CHANNEL_RATE_LIMIT_PER_MINUTE` is a limit per window: an interval keeps it if and only if it lies in one bucket,
  a window if and only if it begins at a bucket boundary (`TwiceTheLimitInOneWindow`, `LimitHoldsIffOneBucket`,
  `WindowKeepsLimitIffAligned`). No window exceeds twice the limit (`ChannelRateBound`).
- DELIVERED means that someone received the message: if and only if the attempt that holds the gate of the text
  ended Sent; the notification itself was never sent (`SuppressedWithoutDelivery`, `DeliveredMeans`,
  `GotIffHolderSent`, `SuppressedIsNeverCalled`).
- A replay keeps the order of the queue: if and only if equal entries of its batch stand side by side
  (`RepeatedEntriesLoseOrder`, `OrderKeptIffAdjacent`). Fresh stamps make all entries differ, so every replay of
  this system keeps it (`QueueIsDistinct`, `BatchIsDistinct`).
- A dispatch queues each row once: if and only if it pairs no member and enabled channel twice whose row is not
  terminal; a row is queued once per mention (`RepeatedChannelQueuesTwice`, `QueuedOnceIff`, `FanoutQueues`).
- An incident counts every accepted event under racing handlers: if and only if no other event was accepted for it
  between the query and the write of any of its refreshes (`RacingRefreshesLoseACount`, `CountsIffUndisturbed`).
- A circuit opens on a full streak under overlapping failures: an opening ends a streak that has reached the
  threshold if and only if some worker about to open counted its failure with no success and no opening since
  (`OverlapOpensTwice`, `OpensOnFullStreakIff`).
- Get-or-create keeps one notification per incident, contact and channel under racing dispatchers: if and only if
  no insert of a key falls between another's find of it and its insert (`TwoFindersInsertTwo`,
  `UniqueIffUndisturbed`).
- An incident leaves OPEN once and is resolved once under racing changes, which read the status without a lock: if
  and only if no change is written between the read and the write of another (`TwoReadersAcknowledge`,
  `StaleReaderReopens`, `OrderlyIffUndisturbed`).

## Model

| member | source | states |
|---|---|---|
| IngestProtocol.SafeIffUnderHalfTtl | main.py:930-1028 | In any interleaving of query, claim, insert, status changes and ticks, at most one OPEN incident per dedupe key, if and only if every handler goes from query to commit in under half the TTL |
| IngestProtocol.RunKeepsInv | main.py:930-1028 | The inductive invariant of that protocol over every run: gates outlive claims, claims on one key are a TTL apart, an OPEN row a handler did not see is younger than its query |
| IngestProtocol.InsertFindsNone | redis_client.py:7-15 | The timing argument: a claimant that commits in time meets no OPEN row with its key, because no status change returns to OPEN |
| IngestProtocol.SlowHandlersOpenTwo | main.py:930-1028 | For every duration of half the TTL or more, a run in which two handlers open two incidents for one key |
| IngestProtocol.CountsIffUndisturbed | main.py:82-102 | Over every run of the protocol an incident's count is never above the events accepted for it, and equals them if and only if no other event was accepted for it between the query and the write of any of its refreshes |
| IngestProtocol.RacingRefreshesLoseACount | main.py:82-102 | A run with three accepted events whose one incident counts two: the increment takes no row lock |
| IngestProtocol.QueryDecides | main.py:930-945 | The query finds an incident exactly when one with the key is OPEN, and then the latest, with the count it has at that moment |
| IngestProtocol.GateIsLastClaim | redis_client.py:7-15 | Over every run a key's gate is the latest claim on it that was let through, and lasts 300 seconds |
| IngestProtocol.ClaimPassesIffExpired | main.py:930-1028 | A handler goes on to its insert exactly when its event has no key or that claim is 300 seconds old |
| IngestProtocol.InsertDecides | models.py:112-116 | An insert opens an incident exactly when none came from the same source with the same external id |
| IngestProtocol.SourcesStayUnique | models.py:112-116 | Over every run, whatever the speed of the handlers, no two incidents share source and external id |
| Incidents.FindOpen | main.py:932-942 | The query answers the latest OPEN row with the key, and none only if there is none |
| ReplayLockProtocol.LockSafeIffUnderTtl | worker.py:1177-1193 | With get and delete as separate steps and workers that may die inside: at most one replay in the section, and no release of another worker's lock, each if and only if every holder is done before its TTL |
| ReplayLockProtocol.RunKeepsInv | worker.py:1177-1193 | Over every timely run the worker inside owns the live lock, and it is alone |
| ReplayLockProtocol.SlowWorkerOverlaps | worker.py:2164-2187 | For every duration of the TTL or more, a run in which two replays overlap and one is about to delete the other's lock |
| Guards.ChannelRateBound | worker.py:668-680 | In any legal history any interval of one window admits at most twice the limit on a channel |
| Guards.ChannelRateOver | worker.py:668-680 | k windows in a row admit at most k + 1 times the limit |
| Guards.TwiceTheLimitInOneWindow | worker.py:668-680 | For every configuration, channel and interval that reaches into two buckets, a legal history that admits twice the limit in it |
| Guards.LimitHoldsIffOneBucket | worker.py:668-680 | An interval keeps the limit over every legal history if and only if it lies in one bucket |
| Guards.WindowKeepsLimitIffAligned | worker.py:725-758 | A window keeps the limit over every legal history if and only if it begins at a bucket boundary |
| Guards.BucketCounts | worker.py:741-745 | A bucket's key holds the number of hits in it, cannot expire while the bucket is current, and the bucket admits exactly min(hits, limit) |
| Guards.ChannelAdmitsIffRoom | worker.py:725-758 | A send is admitted exactly while its bucket has seen fewer attempts than the limit |
| Guards.ServiceRateBound | worker.py:880-891 | Any k hours admit at most (k + 1) * 5 Telegram messages of one service, over unbounded histories |
| Guards.PassesPerWindow | worker.py:880-891 | Windows that begin at their first hit are disjoint and an hour long, and each admits at most five |
| Guards.ServiceKeyIsWindow | worker.py:880-884 | The service key is the running window of the history: its count and its start |
| Guards.ServiceAdmitsIffRoom | worker.py:880-891 | A message is admitted exactly when the window is over or has had fewer than five hits |
| Guards.GateSpacing | worker.py:1599-1604 | Two passes of one dedupe key are at least the earlier one's window apart, whatever window the later one asks for |
| Guards.GateRateBound | worker.py:419-436 | Passes of one dedupe key are bounded by elapsed time over the smallest window asked for |
| Guards.GateRefusesIffCovered | redis_client.py:7-15 | Set-if-absent refuses exactly while the latest pass covers the time |
| Guards.CounterIsStreak | worker.py:699-704 | With each failure and the opening it calls for taken as one event: the stored counter is the failures since the channel's last success or opening, and below the threshold |
| Guards.OpenKeyIsLastOpening | worker.py:691-696 | The open key is the channel's last opening, with its expiry |
| Guards.CircuitRefinesHistory | worker.py:683-722 | With each failure and its opening as one event: the breaker opens exactly on the failure that completes the streak. A send passes exactly when the last opening is CB_OPEN_SECONDS old |
| CircuitProtocol.CounterSurvivesOverlap | worker.py:699-706 | With increment and opening as separate steps of any number of workers: the counter is still the failures since the last success or opening, and below the threshold plus the workers about to open |
| CircuitProtocol.CounterGoesAhead | worker.py:699-706 | For any number of workers a run in which the counter is that far ahead, so the bound is exact |
| CircuitProtocol.ChecksSurviveOverlap | worker.py:683-696 | With separate steps too, a send passes exactly when the last opening is CB_OPEN_SECONDS old |
| CircuitProtocol.OpensOnFullStreakIff | worker.py:699-706 | Over every run of overlapping workers: an opening made now ends a streak that has reached the threshold if and only if some worker about to open counted its failure with no success and no opening since |
| CircuitProtocol.OverlapOpensTwice | worker.py:699-706 | For every threshold a run in which a second worker is about to open the circuit on a streak of none |
| Guards.CircuitsAreIndependent | worker.py:660-665 | Histories that agree on a channel's own events agree on every verdict of its breaker, whatever else happened |
| Guards.LockKeyIsHolder | worker.py:1177-1193 | Over every legal history: the replay lock's key is absent when nobody holds it, else it is the token of the latest Lock that succeeded and that no Unlock of its own token released in time, with the expiry of that Lock |
| Guards.LockRefinesHistory | worker.py:1177-1193 | The lock is given exactly when no holder's time still runs, and released exactly by the token of the holder whose time still runs |
| Guards.HolderAfter | worker.py:1188-1193 | A lock given makes its taker the holder, a release that succeeds leaves none, and nothing else, a refused release included, changes who holds |
| Guards.OnlyHolderReleases | worker.py:1177-1193 | From a lock given until its owner releases it or its time is over, nobody else is given it and no other token releases it |
| Redis.RedisConn.SetIfAbsent | redis_client.py:11-14 | Takes the key with its expiry exactly when it does not exist now |
| Redis.RedisConn.IsDuplicate | redis_client.py:7-15 | False for an empty key; else the verdict of the event gate, logged, with the keys kept equal to the history |
| Redis.RedisConn.RecordChannelFailure | worker.py:699-722 | Counts one failure and opens the circuit at the threshold, as the history's verdict says |
| Redis.RedisConn.ResetChannelCircuitState | worker.py:687-688 | A success clears the counter and nothing else |
| Redis.RedisConn.ChannelCircuitClosed | worker.py:683-684 | The check agrees with the history |
| Redis.RedisConn.ChannelRateLimitAdmits | worker.py:725-758 | INCR and the first hit's EXPIRE give the history's verdict |
| Redis.RedisConn.TelegramServiceRateLimitAdmits | worker.py:880-891 | The same for the service window |
| Redis.RedisConn.AcquireTelegramDedupe | worker.py:1599-1604 | The same for the Telegram gate |
| Redis.RedisConn.AcquireDlqReplayLock | worker.py:1177-1185 | The same for the replay lock; the key becomes the token, with its expiry, exactly when it was not live |
| Redis.RedisConn.ReleaseDlqReplayLock | worker.py:1188-1193 | Deletes the key exactly when it is live and holds the caller's token, else leaves it |
| Delivery.SendAccounts | worker.py:1479-1739 | What the outcome of an attempt says about rows, audits, calls and everything it leaves alone, for every outcome |
| Delivery.SkipsAreDecided | worker.py:1519-1560 | An attempt is skipped for its circuit, or for its channel's limit, exactly when the history says so |
| Delivery.SuppressedIffCovered | worker.py:1592-1623 | A duplicate is suppressed exactly when an earlier attempt with the same text still holds the gate, whether or not that attempt reached anyone |
| Delivery.SuppressedIffFull | worker.py:1624-1648 | A message goes to the digest exactly when the gate is free and its service's window is full |
| Delivery.TerminalAttemptIsInert | worker.py:1495-1501 | An attempt changes nothing and reports already_terminal exactly when the row is terminal |
| Delivery.SendDecides | worker.py:1562-1739 | An attempt on a pending row that is neither skipped nor suppressed calls its provider exactly when the channel's configuration and the contact allow it; with a call the reply decides: Sent with the reply's id if and only if it delivered, failed if and only if it is an e-mail with a runtime error, raised otherwise; without a call the missing piece decides; a suppressed row says why |
| Delivery.FinalFailureWrites | worker.py:1287-1329 | A final failure makes an existing row FAILED with the error unless it is SENT, DELIVERED or ANSWERED_VOICE, and always writes one audit |
| Delivery.SendIsGuarded | worker.py:1519-1649 | A provider is called only right after the circuit check, the channel limit and, on Telegram, the dedupe gate and the service limit, in this order |
| Delivery.SendPays | worker.py:1531-1649 | Each provider call has its own admission in the Redis history, so calls inherit every rate bound |
| Delivery.SendCallsWhileClosed | worker.py:1519-1529 | An attempt that calls its provider found the circuit closed, by the history's last opening |
| Delivery.SendSettles | worker.py:1394-1476 | Every outcome changes exactly the streak and opening it stands for: sent clears its channel's streak, failed adds one or opens, all others, and all other channels, leave both |
| Delivery.FinalFailureSettles | worker.py:1316-1318 | A final failure counts once more against its row's channel, unless the row was terminal or its channel has no breaker |
| Delivery.AccountsKeepNote | worker.py:439-483 | An attempt keeps a notification's audits and successful calls in step with its status |
| Delivery.FinalFailureKeepsNote | worker.py:1287-1329 | So does a final failure |
| Delivery.RaisedThenSuppressed | worker.py:1599-1649 | On a fresh Redis an attempt raises and its retry is suppressed by the key the first one took |
| System.AtMostOnce | worker.py:1394-1476 | At every moment of every run a notification has at most one successful provider call and one NOTIFICATION_SENT audit; SENT and DELIVERED mean exactly one audit, and an audit means SENT, DELIVERED or ANSWERED_VOICE |
| System.TerminalIsForever | worker.py:648-653 | A terminal notification stays terminal and keeps its incident, contact and channel |
| System.CallsAreRateLimited | worker.py:1531-1560 | Over every run provider calls, not only admissions, meet the channel bound and the service bound |
| System.TelegramCallsAreSpread | worker.py:1592-1623 | Over every run Telegram calls with one text are bounded by elapsed time over the smallest window |
| System.NoCallWhileOpen | worker.py:1519-1529 | Over every run no provider is called before CB_OPEN_SECONDS have passed since the channel's last opening |
| LateCalls.LateChannelBound | worker.py:1531-1560 | Calls made up to d after their checks: a window holds at most m + 2 times the limit of a channel when d is at most m windows, twice the limit without delay |
| LateCalls.LateServiceBound | worker.py:1624-1652 | Any k hours hold at most (k + m + 1) * 5 such Telegram calls of one service when d is at most m hours |
| LateCalls.LateGateBound | worker.py:1592-1623 | Such calls with one text are bounded by elapsed time and d over the smallest window |
| LateCalls.LateCircuitBound | worker.py:1519-1529 | Such a call is made at most d after any opening of its circuit, or not before CB_OPEN_SECONDS after it |
| System.Lifecycle | main.py:1810-1833 | ACK_RECEIVED and ESCALATED audits together at most one per incident, over API, voice, deadline and sweep; OPEN means none, acknowledged_at means one ACK, RESOLVED means one resolution |
| LifecycleProtocol.OrderlyIffUndisturbed | main.py:1805-1833 | With the read of the status and the write as separate steps of acknowledgements, escalations and resolutions: at most one ACK_RECEIVED or ESCALATED audit and at most one resolution if and only if no change was written between the read and the write of another |
| LifecycleProtocol.TwoReadersAcknowledge | main.py:1805-1833 | A run in which two acknowledgements are both accepted |
| LifecycleProtocol.StaleReaderReopens | main.py:1863-1895 | A run in which a stale acknowledgement takes a resolved incident out of RESOLVED |
| System.StatusesMoveForward | main.py:1869-1895 | Each step moves a status along one edge; RESOLVED absorbs; nothing is OPEN again; acknowledged_at and the matched rule are written once |
| System.IngestConservation | main.py:942-1076 | All occurrences together are the accepted answers, each incident's are its EVENT_RECEIVED audits, and (source, external id) and OPEN keys stay unique |
| System.AlertStormBound | main.py:67-102 | Ingest dispatches an incident at most five times, plus once for every silence of more than an hour |
| System.OneNotePerKey | worker.py:1196-1222 | At most one notification per incident, contact and channel, over every run |
| NoteProtocol.UniqueIffUndisturbed | worker.py:1196-1222 | With find and insert as separate steps of any workers: at most one row per incident, contact and channel if and only if no insert of a key fell between another worker's find of it and its insert |
| NoteProtocol.TwoFindersInsertTwo | worker.py:1202-1222 | For any key, a run in which two workers leave two rows |
| System.DlqAccounting | worker.py:1277-1284 | Every push is queued, replayed, discarded or trimmed, only one of them and for good; the list is the still queued pushes in push order; a push leaves at most the maximum |
| System.SuppressedIsSettledLater | worker.py:1599-1648 | After a suppressed attempt every later attempt on that row is a no-op that counts as done |
| System.SuppressedWithoutDelivery | worker.py:1599-1649 | A run that ends with a DELIVERED notification and no successful call |
| Reach.DeliveredMeans | worker.py:439-483 | Over every run a DELIVERED notification was suppressed by an attempt of its own and never sent; someone had got its text since the gate was taken if and only if the attempt that holds the gate ended Sent |
| Reach.GotIffHolderSent | worker.py:1599-1649 | At every moment of every run: there is a successful Telegram call with the text since its gate was taken if and only if the attempt that took it ended Sent |
| Reach.SuppressedHasHolder | worker.py:1599-1623 | A suppressed duplicate has an earlier attempt with the same text that took the gate, whose window still runs |
| Reach.SuppressionHasHolder | worker.py:1599-1648 | After any suppression the gate has a holder: the attempt itself if and only if the service window was full |
| Reach.SuppressedIsNeverCalled | worker.py:1605-1648 | A suppressed notification, duplicate or rate limited, has no successful call of its own before or ever after |
| Reach.DeliveredBySuppression | worker.py:439-483 | Nothing but a suppressed attempt makes a notification DELIVERED |
| System.RunKeepsInv | worker.py:1479-1739 | All invariants together hold at every moment of every run |
| System.RunAges | main.py:1795-1895 | Between any two moments of a run rows have only aged |
| Incidents.AnswerIsDecided | main.py:896-1096 | Which of the five answers an event gets, told from severity, the OPEN row, the latest claim and the (source, id) pair |
| Incidents.IngestKeeps | main.py:942-1076 | Every ingest keeps an incident's lifecycle, its count of audits and answers, and its dispatch budget |
| Incidents.IngestKeepsUnique | models.py:112-116 | Every ingest keeps (source, external id) and OPEN keys unique |
| Incidents.IngestRows | main.py:942-1058 | An event adds one row, refreshes one, or changes none, and touches nothing else |
| Incidents.IngestDispatches | main.py:942-1082 | An ingest dispatches the incident its answer names, once, if and only if the event has a rule and the answer is Created, or is Deduplicated with a new count of 10, 50, 100 or 500 or after more than an hour without a sighting; told from the answer and the rows before and after |
| Incidents.DispatchesGrow | main.py:67-102 | So for every incident its dispatches grow by one exactly then, else they stay |
| Incidents.IngestWrites | main.py:942-1076 | What each of the five answers says was written: the new row as the event has it, one more occurrence in the latest OPEN row with the key, or no row, with the audits of each |
| Incidents.AcknowledgementKeeps | main.py:1810-1833 | An acknowledgement of an OPEN incident, with its audit, keeps the lifecycle of every incident |
| Incidents.EscalationKeeps | worker.py:1966-1977 | So does an escalation of an OPEN incident |
| Incidents.ResolutionKeeps | main.py:1869-1895 | So does a resolution of an acknowledged or escalated one |
| Incidents.CallbackKeeps | main.py:2565-2592 | A voice key press keeps the lifecycle: it acknowledges only an OPEN incident and only when signed |
| Fanout.FanoutKeysAre | worker.py:173-182 | The keys of a fan-out are the members times the valid channels, without TELEGRAM and EMAIL for INFO however it is padded, nothing else and nothing missing |
| Fanout.CreateAllAdds | worker.py:1764-1789 | A fan-out makes the key set exactly old plus its keys, keeps every row, adds only PENDING rows without provider id and error, and keeps keys unique |
| Fanout.FanoutIsIdempotent | worker.py:1196-1222 | The same fan-out again adds no row |
| Fanout.QueuedAreOpen | worker.py:1788-1789 | A fan-out queues exactly its rows that are not terminal |
| Fanout.FanoutQueues | worker.py:1764-1789 | A row that is not terminal is queued once for each occurrence of its member times each mention of its channel, exactly |
| Fanout.QueuedOnceIff | worker.py:1764-1789 | A fan-out queues each row at most once if and only if it pairs no member and enabled channel twice whose row is not terminal |
| Fanout.RepeatedChannelQueuesTwice | worker.py:1772-1789 | Every fan-out that mentions an enabled channel twice queues some row twice, unless the rows of the channel are terminal |
| Fanout.TasksCounted | worker.py:1225-1239 | The rows queued put on the channel queues one task each time, on the row's own channel, if that is VOICE, TELEGRAM or EMAIL, and no other task |
| DeadLetters.DrainKeepsMultiset | worker.py:2190-2225 | After the replay loop the list is, as a multiset, the kept entries of the batch and the tail; initial length is remaining plus replayed plus discarded |
| DeadLetters.DrainKeepsOrder | worker.py:2190-2225 | When equal entries of the batch stand side by side, the list is the kept entries, then the untouched tail, in order, whatever the tail repeats |
| DeadLetters.OrderKeptIffAdjacent | worker.py:2190-2225 | The replay loop keeps the order under all rulings if and only if equal entries of its batch stand side by side |
| DeadLetters.RepeatedEntriesLoseOrder | worker.py:2212-2221 | Whenever equal entries of the batch stand apart, keeping all but the later one takes the earlier one out |
| DeadLetters.DistinctPushes | worker.py:1266-1275 | Pushes that all differ leave a queue whose entries all differ |
| System.QueueIsDistinct | worker.py:1277-1284 | A run whose pushes differ, as their fresh stamps make them, has a queue of distinct entries at every moment |
| DeadLetters.PushesKeepLast | worker.py:1148-1156 | Trimming at every push keeps the last N of the whole history |
| DeadLetters.TrimAccounted | worker.py:1148-1156 | A trim drops the oldest queued entries, leaves at most the limit, and keeps every fate |
| DeadLetters.RemoveAccounted | worker.py:2212-2221 | A removal by value gives one fate to the oldest queued push of that value |
| DeadLetters.FirstMarkedOnce | worker.py:2212-2221 | Removing a queued value gives exactly one push its fate and changes no other count |
| DeadLetters.DlqConservation | worker.py:1277-1284 | Pushes are queued, replayed, discarded and trimmed ones together |
| DeadLetters.BoundReplayLimit | worker.py:1172-1174 | A replay's limit is at least one and at most the operators' maximum, and what was asked for in between |
| DeadLetters.HopelessIff | worker.py:2202-2208 | The error filter drops exactly the errors that spell one of its three phrases somewhere, whatever the letter case |
| Retry.DelayBounds | worker.py:1850-1857 | Each delay lies between 1 and M + max(1, M/3), and without jitter is the capped backoff |
| Retry.BaseDoubles | worker.py:1850-1853 | The jitter-free delay begins at the backoff and doubles with every retry, up to M |
| Retry.JitterAdds | worker.py:1854-1857 | Jitter adds what is drawn, at most a third of the delay, or one second when that is less than one |
| Retry.DelaysSaturate | worker.py:1850-1853 | Jitter-free delays never shrink and reach M exactly when the product does |
| Retry.TotalBound | worker.py:1850-1853 | n jitter-free delays take at most n * M and at most b * (2^n - 1) |
| Retry.BackoffTotal | worker.py:1850-1857 | With jitter the whole backoff lies between the jitter-free total and n longest delays |
| TelegramText.EscapeRoundTrips | worker.py:242-244 | A reader that drops each escaping backslash gets every text back, and every reserved character of the output is escaped |
| TelegramText.EscapeOfUnescape | worker.py:242-244 | The well-escaped texts are exactly the outputs of escaping |
| TelegramText.EscapeDistributes | worker.py:242-244 | Escaping distributes over concatenation |
| TelegramText.EscapeIsInjective | worker.py:242-244 | Different texts stay different |
| TelegramText.EscapeAdds | worker.py:242-244 | Escaping adds one character for each reserved one, and leaves exactly the texts without any as they are |
| TelegramText.ReservedAre | worker.py:242-244 | The reserved characters are the punctuation of ASCII but for thirteen named ones |
| ReplayWalk.ReplayedIsSettled | worker.py:2131-2155 | In a run with any other steps in between: an entry counted as replayed names a notification that is terminal, or an incident no longer OPEN, from then on |
| ReplayWalk.SettledAreReplayed | worker.py:2202-2221 | Whatever is settled when a replay comes to it is replayed, unless dry run or the error filter comes first |
| ReplayWalk.SuppressedIsReplayedNext | worker.py:1599-1648 | An entry that one replay kept because its attempt was suppressed is replayed and removed by any later replay of the run that reaches it |
| ReplayWalk.WorkersAre | worker.py:2131-2155 | A replayed entry goes to the channel whose worker wrote it, one worker for each channel with a task |
| ReplayWalk.QueueAfterWalk | worker.py:2190-2225 | A replay among steps that push but do not trim leaves what its rulings leave of the list, then everything pushed since, equal entries or not |
| ReplayWalk.ReplayKeepsQueue | worker.py:2190-2225 | In such a run nothing is lost, and with equal entries side by side the queue is the kept entries, the tail and the new pushes, in order |
| ReplayWalk.ReplayAmongTrims | worker.py:1148-1156 | A replay among steps that push, trim and prune, when pushes differ: the queue is a suffix of the kept entries, the tail and the new pushes |
| ReplayWalk.RemovedIsGone | worker.py:2212-2221 | With pushes that differ, an entry that was replayed or discarded is never queued again, whatever else happens |
| ReplayWalk.BatchIsDistinct | worker.py:2191-2191 | With pushes that differ, every batch is one of distinct entries, so every replay keeps its order |
| ChannelTasks.TaskFailsIffAllRaised | worker.py:1351-1391 | A task driven by its guards, with any other steps of the run in between: at most max_retries + 1 attempts; it goes on to its dead letter if and only if as many all raised, and then attempts no more; when over it has pushed exactly one letter, with the last error, and told the database once if they all raised, and never otherwise |
| ChannelTasks.TaskLeavesRow | worker.py:1287-1329 | A task that is over leaves its row terminal or FAILED, FAILED with the last error if all attempts raised and nothing else had made it terminal, unless its last attempt was skipped |
| ChannelTasks.TaskStands | worker.py:1840-1857 | The induction over the task's own steps: where a task stands is told by the steps behind it |
| ChannelTasks.TaskTakesItsTime | worker.py:1850-1857 | A task that has retried n times waits for a time at least the jitter-free backoff after its first attempt, whatever falls in between |
| ChannelTasks.TerminalEndsTask | worker.py:1840-1857 | A row that anything else made terminal ends the task at the attempt that finds it |
| ChannelTasks.PlanFollows | worker.py:1840-1857 | A task with nothing in between is a task of the run, and over |
| Handlers.SweptRows | worker.py:2092-2113 | The sweep changes exactly the stale OPEN rows it has reached |
| Handlers.SweepAuditsStale | worker.py:2102-2111 | The sweep writes one ESCALATED audit for each row it escalates, and as many as it counts |
| Handlers.Store.IngestEvent | main.py:895-1096 | The handler is the ingest transaction, in the source's order of checks, and reports the answer it recorded; what it writes and dispatches, from old and new fields alone |
| Handlers.Store.RefreshExistingIncident | main.py:82-102 | The row after a repeat, and whether it notifies |
| Handlers.Store.FindOpenIncident | main.py:932-942 | The loop finds the latest OPEN row with the key |
| Handlers.Store.AcknowledgeIncident | main.py:1794-1847 | 404, 409 or ACKNOWLEDGED, exactly by the row; ACKNOWLEDGED writes status, both times, the person if given and one ACK_RECEIVED audit, else nothing changes |
| Handlers.Store.ResolveIncident | main.py:1853-1908 | 404, 409 or RESOLVED, exactly by the row; RESOLVED writes status, time and audit, else nothing changes |
| Handlers.Store.HandleVoiceCallback | main.py:2514-2593 | Ignored, rejected or recorded; the incident is acknowledged if and only if the call is signed, 1 was pressed and it is OPEN, with the whole new state |
| Handlers.Store.StaleIncidentSweeper | worker.py:2084-2120 | Escalates exactly the OPEN incidents created before the cutoff, with an ESCALATED audit each, and counts them |
| Handlers.Store.SendNotificationChannel | worker.py:1479-1739 | The task body is the attempt transaction and returns its outcome |
| Handlers.Store.MarkNotificationSent | worker.py:1394-1433 | Row, audit and breaker after a send |
| Handlers.Store.MarkNotificationFailed | worker.py:1436-1476 | Row, breaker and audit after a failure |
| Handlers.Store.MarkNotificationSuppressed | worker.py:439-483 | Row and audit after a suppression |
| Handlers.Store.RecordFinalFailure | worker.py:1287-1329 | Row, breaker and audit after the last attempt |
| Handlers.Store.PushDlqEntry | worker.py:1277-1284 | The list after a push is the last N of the list and the entry |
| Handlers.Store.PruneDlq | worker.py:2287-2301 | The list after a prune is its last N, and removed plus remaining is what it was |
| Handlers.Store.GetOrCreateNotification | worker.py:1196-1222 | Returns the row of the key, adding one only if there was none |
| Handlers.Store.QueueNotification | worker.py:1225-1239 | One TASK_QUEUED audit, and a task only on a channel that has one |
| Handlers.Store.DispatchIncident | worker.py:1753-1822 | Rows, audits, tasks and queued ids are those of the fan-out, each row queued, audited and given its task as often as it is named, once if and only if no pair is repeated; nothing without an incident and a rule |
| Handlers.Store.HandleEscalation | worker.py:1956-2081 | Only an OPEN incident is escalated; then nothing, one FAILED audit, or the fallback fan-out with its tasks, by the policy |
| Handlers.Store.RemoveDlqEntry | worker.py:2212-2221 | The first entry with the value leaves the list, and one push meets the fate it was removed for |
| Handlers.Store.ReplayElement | worker.py:2195-2223 | The step taken for one entry and the ruling that follows from it, exactly, and what that does to the live list; a settled entry changes nothing but the queue |
| Handlers.Store.ReplayEntry | worker.py:2131-2155 | The step the entry asks for, and success exactly when the source's result check says so |
| Handlers.Store.ReplayDlq | worker.py:2158-2267 | Locked exactly when the lock is held; else a walk over the first entries that is part of the run, with the step taken for each, the list and the fates its rulings leave, a report that agrees with them, at most the limit replayed, order kept when pushes differ, and the lock taken first and released last; dry run touches nothing but the lock |
| Handlers.Store.HandleTaskFinalFailure | worker.py:1344-1349 | One dead letter, then FAILED unless the row is terminal, and no other step |
| Handlers.Store.RunChannelTask | worker.py:1834-1857 | The task's steps are exactly attempts and delays, each retry for an attempt that raised, until one does not raise or max_retries is used up; then one dead letter and a FAILED row, else no dead letter |
| Handlers.Store.Countdown | worker.py:1850-1857 | Computes the delay that doubles up to its maximum |

## Left out

- Crashes between a provider call and its commit, and between the two halves of INCR/EXPIRE or SETNX/EXPIRE: each pair is one step.
- Overlapping transactions, except in the protocol modules. `Guards` interleaves whole guard operations and `System` whole transactions; a send's Redis operations belong to its step.
- Guards.CounterIsStreak: a failure's INCR and the pipeline that opens the circuit are assumed to be one step; `CounterSurvivesOverlap` says what holds when workers overlap between the two.
- Guards.CircuitRefinesHistory: the same assumption; `OpensOnFullStreakIff` says exactly which openings end a full streak when workers overlap.
- System.OneNotePerKey: holds for serial get-or-create; the table has no constraint on the three columns, so two overlapping dispatchers can insert a row each; `UniqueIffUndisturbed` says exactly when.
- System.IngestConservation: holds for serial handlers; `CountsIffUndisturbed` says exactly which overlapping ones keep an incident's count.
- System.Lifecycle: holds for serial changes; `OrderlyIffUndisturbed` says exactly which overlapping ones keep to it.
- System.CallsAreRateLimited: an attempt takes no time, so a call carries its admission's time; `LateChannelBound` and `LateServiceBound` give the bounds for calls made up to d later.
- System.TelegramCallsAreSpread: the same; `LateGateBound` gives the bound for later calls.
- System.NoCallWhileOpen: the same; `LateCircuitBound` gives the bound for later calls.
- ReplayWalk.QueueAfterWalk: covers no trims during the replay, where equal entries could be taken for each other; `ReplayAmongTrims` covers them when pushes differ.
- ReplayWalk.ReplayKeepsQueue: the same.
- System.AtMostOnce: relies on the row lock that makes an attempt one transaction, and says nothing about a worker killed after the provider accepted.
- Handlers.Store.ReplayDlq: the method runs its entries one after another; the theorems of `ReplayWalk` allow any steps in between. A list element that is JSON but not an object counts as a candidate in the source; here an element either is an entry or does not parse.
- Handlers.Store.StaleIncidentSweeper: the source commits all rows in one transaction, here each row is a step. The sweep and the escalation task are kept in the source but not registered with Celery at present.
- Handlers.Store.RunChannelTask: the retry policy is a fixed valid one during the task, and in the method the clock moves only by the delays; the theorems of `ChannelTasks` allow any steps in between.
- Handlers.Store.DispatchIncident: members and channels come with the rule as parameters; a name that is no channel is None.
- Identifiers are positions in the tables, rendered key names and their prefixes are constructors of a datatype, and a dedupe key stores 1 instead of the notification id (nobody reads it).
- The text of audits, the payload's keyword arguments, and the diagnosis of an invalid fallback policy, which is reduced to its one FAILED audit.
- Lower-casing in the replay error filter is ASCII only; the three phrases it looks for are ASCII.
- The Telegram digest buffer and its worker, metrics, heartbeats and the replay report: observability that expires.
- Provider clients, URL building, templates, webhook signatures, the admin token, TwiML.
- Rule matching, the rule dedupe key, severity mappers, classifier: inputs here.
- Pull workers and their cursors, `acquire_idempotency_key`: they depend on what remote services return.
- CRUD, listing, export, health and readiness reports: single-branch claims.
