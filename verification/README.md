# Models and proofs for TickFeedDMR

TickFeedDMR collects market data from Binance, the Moscow Exchange and the Bank of Russia, stores
it, streams it to browsers and offers an AI chat over it. This project models the parts of it
that have to work whatever happens around them and proves what they promise. Nothing of the
program is executed; the claims are about the models, which follow the code branch by branch.

    dafny verify dfyconfig.toml

## What is modelled

| file | what it models |
|---|---|
| `tables.dfy` | the insert that ignores conflicting rows |
| `stream_selection.dfy` | the stable top-N rule and its per-group form |
| `trade_stream.dfy`, `trade_pipeline.dfy` | the Redis stream of crypto trades, its consumer group, the table, trimming, crash recovery |
| `stream_hub.dfy` | the shared reader behind the SSE streams |
| `binance_pairs.dfy`, `binance_subscriptions.dfy` | which pairs one socket takes, and keeping its subscriptions in step with the wanted ones |
| `asset_triggers.dfy` | which saves of an asset announce a change |
| `asset_changes.dfy` | the change log and the loop that follows it |
| `asset_announcements.dfy` | both together: saves of an asset as commits that the log tells of or not |
| `quota.dfy` | the daily AI quota shared by concurrent runs |
| `chat.dfy` | the loop between the model and the tools |
| `chat_history.dfy` | what the chat window sends and what the server accepts |
| `moex_polling.dfy` | the page loop over the MOEX trade feed and its saved cursor |
| `daily_candles.dfy` | catching up daily candles by date and by offset |
| `keyset.dfy` | cursor pagination over a growing table |
| `locks.dfy` | the run lock |
| `calendar_periods.dfy`, `period_stats.dfy`, `indicators.dfy` | calendar periods, returns, drawdown, RSI |

How the models are built:

- A component that changes state in place is a class with the program's fields. Its methods keep
  an invariant or are proved against a pure state machine over the same steps; the theorems are
  about every state such a machine can reach.
- Everything outside a component (other processes, the network, clocks, the model, the tools) is
  a finite tape or script that says what happens at every `await`. No tape is excluded, so a
  contract holds for every run, cut off anywhere; a tape that ends is a process that dies.
- What must happen in the end is said of tapes on which nothing fails, or whose end is calm: from
  some tick on nothing new happens and every command succeeds. How long that end has to be is part
  of the contract.
- Stream ids are numbered in the order of addition, trading pairs in alphabetical order, moments
  and days by integers. A frozen set that is iterated over is a sequence without repetitions, in
  its iteration order.
- Prices and averages are exact reals; rounding, logarithms and deviations are not modelled.

## What the proofs found

- `remember_subscription_fields` refreshes the snapshot from every loaded field, also those that
  `update_fields` left unwritten. A later full save can then change the row without an event.
  `AssetTriggers.LostEvent` is an input, `AssetTriggers.LostEventOfDeferredField` one through a
  deferred field that a save loads; `AssetTriggers.AnnouncedIffNothingForgotten` says, over any list
  of saves, exactly when this cannot happen, and `AssetAnnouncements.TracedIffNotSilent` what it means
  for the follower of the change log.
- The MOEX poller loads the asset, with its cursor, before it takes the lock. Mutual exclusion
  alone therefore does not stop the cursor from going back (`MoexPolling.LockedRunTakesCursorBack`);
  `MoexPolling.LoadedCursorIsSafeIff` is the exact condition, for a run of any number of pages of any
  size, and `MoexPolling.FullPagesAreSafeIff` the one over a feed that gives full pages. No trade is
  lost by it.
- The history the chat window sends always passes the server's checks on count, total length and
  last role. The check of single messages can fail in two ways. An empty or over-long reply of the
  model does not pass (`ChatHistory.EmptyReplyIsRefused`); a run may end well without any text, so
  such a reply can be there. And the two sides disagree on white space: a message of the user's made
  of the separators U+001C to U+001F or U+0085 is text to JavaScript and blank to Python
  (`ChatHistory.SeparatorIsRefused`). `ChatHistory.AcceptedIff` is the exact condition.
- The consumer's trim is safe only because it runs with nothing pending:
  `TradeStream.TrimWithPendingIsUnsafe` shows, for every gap, a state in which the same trim loses an
  entry.
- The docstring of `CryptoTradeIngestService.write_snapshots` says trades of inactive assets are
  skipped. The query filters by exchange and pair only; the model follows the query.
- A batch whose write raises is acknowledged and lost on purpose. The exactly-once theorem says so
  in its condition.

## Model

| member | source | states |
|---|---|---|
| StreamSelection.StableSortIsStable | tickfeeddmr/market_data/services/stream_selection.py:26 | the sort orders by key and keeps items with equal keys in input order |
| StreamSelection.StableSortUnique | tickfeeddmr/market_data/services/stream_selection.py:26 | two sorted sequences that agree on every key's items in order are equal, so no sort algorithm is assumed |
| StreamSelection.LatestKeepsNewest | tickfeeddmr/market_data/services/stream_selection.py:11-26 | `latest` splits its input into kept and dropped; the kept are sorted, at most n, and no dropped item is newer than a kept one |
| StreamSelection.LatestIsIncremental | tickfeeddmr/market_data/services/stream_selection.py:11-26 | `latest(latest(a) + b) == latest(a + b)` exactly, ties included, for every n |
| StreamSelection.FoldLatestIsBatch | tickfeeddmr/market_data/services/moex_polling/trades.py:152-172 | folding the rule over any pages gives the one selection over all of them |
| StreamSelection.GroupItems | tickfeeddmr/market_data/services/stream_selection.py:29-47 | the dictionary of lists holds each group's items in order, its keys in order of first appearance |
| StreamSelection.SelectPerGroupByDict | tickfeeddmr/market_data/services/stream_selection.py:29-47 | the loop over the dictionary computes the per-group selection, sorted |
| StreamSelection.SelectionIsPerGroup | tickfeeddmr/market_data/services/stream_selection.py:29-47 | of each group the result holds exactly what the rule picks from that group alone, so a busy group crowds out no other |
| StreamSelection.GatherAnyOrder | tickfeeddmr/market_data/services/stream_selection.py:29-47 | the picked items do not depend on the order in which groups are visited |
| TradeStream.AddKeepsInv | tickfeeddmr/market_data/services/trade_stream_retention.py:27-29 | adding with the producer's MINID ceiling keeps the invariant of log, group and rows |
| TradeStream.CeilingReaches | tickfeeddmr/market_data/services/trade_stream_retention.py:27-29 | whatever is older than the ceiling by the producer's clock may go when an entry is added |
| TradeStream.DeliverKeepsInv | tickfeeddmr/market_data/management/commands/consume_market_data_stream.py:62-70 | reading new entries keeps the invariant, and the batch is in hand |
| TradeStream.ReplayInHand | tickfeeddmr/market_data/management/commands/consume_market_data_stream.py:105-134 | what is read again is pending, with the fields it had or cut off by the ceiling only |
| TradeStream.AckKeepsInv | tickfeeddmr/market_data/management/commands/consume_market_data_stream.py:136-178 | acknowledging entries whose write was attempted keeps the invariant, removes just them from the pending list and shortens it |
| Tables.InsertIgnoreRows | tickfeeddmr/market_data/services/ingest.py:42-66 | the insert leaves rows with a key as they are, adds a row for each new key and takes it from the batch |
| TradeStream.WriteRowKeys | tickfeeddmr/market_data/services/ingest.py:20-66 | after a write the row keys are those of all written entries that decode and resolve to an asset |
| TradeStream.WriteRowValues | tickfeeddmr/market_data/services/ingest.py:20-66 | every row is the trade of some written entry with its key |
| TradeStream.WriteKeepsInv | tickfeeddmr/market_data/services/ingest.py:20-66 | a write keeps the invariant, also of a redelivered batch |
| TradeStream.FailWriteKeepsInv | tickfeeddmr/market_data/management/commands/consume_market_data_stream.py:142-148 | so does a write that raises, with its entries noted as failed |
| TradeStream.GapTrimKeepsInv | tickfeeddmr/market_data/services/trade_stream_retention.py:61-84 | with nothing pending, a trim behind min(last written, now − gap) removes acknowledged entries only |
| TradeStream.TrimWithPendingIsUnsafe | tickfeeddmr/market_data/services/trade_stream_retention.py:61-84 | whatever the gap, with something pending there are states in which the same trim breaks the invariant |
| TradePipeline.TradeStreamTrimmer.NoteWritten | tickfeeddmr/market_data/services/trade_stream_retention.py:48-59 | remembers the later of the two ids and ignores None |
| TradePipeline.TradeStreamTrimmer.MaybeTrim | tickfeeddmr/market_data/services/trade_stream_retention.py:61-84 | called with nothing pending it keeps the invariant; it sends a trim behind the older boundary exactly when something was written and the interval has passed, and whatever the server then removes is all that changes |
| TradePipeline.CryptoTradeIngestService.WriteSnapshots | tickfeeddmr/market_data/services/ingest.py:20-66 | the replies to the lookup and to the insert alone decide what was done: with both good, or nothing to write, the rows are inserted and the write succeeds; an entry fails only through a refused or lost reply; a process that dies has done nothing or all |
| TradePipeline.ConsumeCommand.DecodeMessages | tickfeeddmr/market_data/management/commands/consume_market_data_stream.py:181-206 | the trades of the batch in order, without truncated and malformed messages |
| TradePipeline.ConsumeCommand.ProcessBatch | tickfeeddmr/market_data/management/commands/consume_market_data_stream.py:136-178 | a batch processed to its end is acknowledged whether or not the write raised, and the pending list loses nothing but it; rows, written and failed entries follow the two replies of the write, and the last id is returned exactly if that succeeded |
| TradePipeline.ConsumeCommand.RecoverPending | tickfeeddmr/market_data/management/commands/consume_market_data_stream.py:105-134 | terminates, and ends well only with nothing pending; if every reply is good it does end well, and the trimmer then knows every replayed entry as written |
| TradePipeline.ConsumeCommand.ReadAndProcess | tickfeeddmr/market_data/management/commands/consume_market_data_stream.py:62-83 | a turn of the main loop begins and, unless an error ends it, finishes with nothing pending; if every reply is good it finishes, fails no entry, notes the last entry read and looks after the log on the clock read then |
| TradePipeline.ConsumeCommand.MainLoop | tickfeeddmr/market_data/management/commands/consume_market_data_stream.py:60-83 | turns until an error; over ticks without one every turn brings at least one entry to its end |
| TradePipeline.ConsumeCommand.RunConnection | tickfeeddmr/market_data/management/commands/consume_market_data_stream.py:49-87 | up to the moment recovery has left nothing pending, and if that is never reached throughout, only the producer removes entries: the consumer's trims come after it; a connection on which every reply is good lasts until the process dies |
| TradePipeline.ConsumeCommand.Run | tickfeeddmr/market_data/management/commands/consume_market_data_stream.py:49-87 | reconnecting keeps the invariant and the trimmer's id stays one that was delivered |
| TradePipeline.Supervise | tickfeeddmr/market_data/management/commands/consume_market_data_stream.py:49-87 | over any number of lives of the process: the log is what was added; every removed entry was acknowledged or older than the producer's ceiling, the consumer removed only acknowledged entries older than the gap; if every reply was good no entry failed or was cut off; with none failed, cut off or pending the rows are exactly those of the acknowledged entries; and after a calm end, six ticks an entry and a few more, nothing is pending and every entry was acknowledged or went over the ceiling unread |
| TradePipeline.LogHasAll | tickfeeddmr/market_data/management/commands/stream_binance.py:80-90 | with ascending ids, as the server assigns them, the log is all that was added |
| TradePipeline.RetentionSafety | tickfeeddmr/market_data/services/trade_stream_retention.py:48-75 | in every state of the invariant, what left the log was acknowledged or over the ceiling |
| TradePipeline.NothingGoesMissing | tickfeeddmr/market_data/management/commands/consume_market_data_stream.py:105-178 | each entry is exactly one of: waiting, pending, acknowledged after an attempted write, removed unread over the ceiling |
| TradePipeline.RowsOfDelivered | tickfeeddmr/market_data/services/ingest.py:42-66 | the rows contain those of all acknowledged entries whose write took effect and nothing that was never delivered |
| TradePipeline.RowsExactlyOnce | tickfeeddmr/market_data/services/ingest.py:42-66 | with no failed write, nothing cut off and nothing pending, the rows are exactly those of the acknowledged entries |
| TradePipeline.RecoveryTurn | tickfeeddmr/market_data/management/commands/consume_market_data_stream.py:105-134 | a recovery turn replays something and its acknowledgement shortens the pending list |
| StreamHub.Subscriber.Deliver | tickfeeddmr/market_data/services/stream_reader/hub.py:43-46 | the cell holds the newest batch only |
| StreamHub.Subscriber.Take | tickfeeddmr/market_data/services/stream_reader/hub.py:53-58 | hands out the newest unread batch, at most once |
| StreamHub.Hub.AddSubscriber | tickfeeddmr/market_data/services/stream_reader/hub.py:87-92 | the group counters stay exactly the numbers of live subscribers of each group |
| StreamHub.Hub.RemoveSubscriber | tickfeeddmr/market_data/services/stream_reader/hub.py:94-101 | the same when one leaves; others' buffers are untouched |
| StreamHub.Hub.Collect | tickfeeddmr/market_data/services/stream_reader/hub.py:152-163 | for every subscriber the buffer goes on holding all records of its groups since it joined |
| StreamHub.Hub.FlushWindow | tickfeeddmr/market_data/services/stream_reader/hub.py:165-181 | a subscriber there for the whole window gets exactly its private batch and is woken if that is not empty; an empty one leaves the unread batch and the event alone |
| StreamHub.KeepComplete | tickfeeddmr/market_data/services/stream_reader/hub.py:152-163 | one record keeps every subscriber's share of the buffer complete as long as its groups are counted |
| StreamHub.CompleteBatch | tickfeeddmr/market_data/services/stream_reader/hub.py:165-181 | a complete buffer yields the private batch |
| StreamHub.PrivateBatchIsSelectPerGroup | tickfeeddmr/market_data/services/stream_selection.py:29-47 | a private batch is, as a sorted multiset, `select_per_group` over the window's decodable records of the wanted groups |
| StreamHub.Registry.RegisterSubscriber | tickfeeddmr/market_data/services/stream_reader/hub.py:200-213 | joins the registered hub or starts one |
| StreamHub.Registry.UnregisterSubscriber | tickfeeddmr/market_data/services/stream_reader/hub.py:216-226 | the hub leaves the registry with its last subscriber and not before |
| StreamHub.CellIsLastBatch | tickfeeddmr/market_data/services/stream_reader/hub.py:34-58 | a reader that skips windows finds the private batch of the last window that had one since it last read, and nothing if there is none |
| StreamHub.Play | tickfeeddmr/market_data/services/stream_reader/hub.py:87-163 | a stretch of joins, departures and records on a hub: who is there after it, and what was read |
| StreamHub.SharedAsPrivate | tickfeeddmr/market_data/services/stream_reader/hub.py:87-181 | a subscriber joins a hub in use at any point of any window; whoever joins and leaves and whichever windows it skips, from the first whole window on it reads exactly what a reader of its own would have left for it |
| BinancePairs.SortedPairsAscend | tickfeeddmr/market_data/providers/binance/websocket.py:114 | the sorted list of a set ascends strictly |
| BinancePairs.CappedIsFirst | tickfeeddmr/market_data/providers/binance/websocket.py:105-122 | at most 1024 pairs are kept, no dropped pair precedes a kept one |
| BinancePairs.ChunksCover | tickfeeddmr/market_data/providers/binance/websocket.py:40-42 | the chunks have at most 200 pairs each and hold exactly the given pairs |
| BinanceSubscriptions.BinanceTradeStreamConsumer.SetDesired | tickfeeddmr/market_data/providers/binance/websocket.py:105-122 | the desired set is the capped one and the availability event follows it |
| BinanceSubscriptions.BinanceTradeStreamConsumer.Await | tickfeeddmr/market_data/providers/binance/websocket.py:78-86 | whatever happens during an `await`: the set asked for last is the desired one, the socket is as far as the dials, connects and drops took it, and a new desired set or a new connection leaves a sync waiting |
| BinanceSubscriptions.LastWantedIs | tickfeeddmr/market_data/providers/binance/websocket.py:78-86 | the desired set is the capped one of the last update among what happened, or the one before if there was none |
| BinanceSubscriptions.LinkIs | tickfeeddmr/market_data/providers/binance/websocket.py:124-172 | there is a connection only if one was opened and not left since, and there is one if something was wanted when it was dialled and neither the dial nor the connection was lost |
| BinanceSubscriptions.BinanceTradeStreamConsumer.SendControl | tickfeeddmr/market_data/providers/binance/websocket.py:205-220 | unless the connection changed or a send failed, the server was told just this chunk |
| BinanceSubscriptions.BinanceTradeStreamConsumer.ApplyChange | tickfeeddmr/market_data/providers/binance/websocket.py:174-203 | chunk by chunk, staying within the allowed room; completed, the recorded set changed by exactly the given pairs |
| BinanceSubscriptions.BinanceTradeStreamConsumer.SyncSubscriptions | tickfeeddmr/market_data/providers/binance/websocket.py:174-203 | afterwards an open connection without failed sends and without a waiting sync carries exactly the desired pairs; a connection that worked, and on which every send succeeded, works; a sync is over after twelve waits |
| BinanceSubscriptions.BinanceTradeStreamConsumer.Run | tickfeeddmr/market_data/providers/binance/websocket.py:124-203 | every schedule of updates, connects, drops and syncs keeps that; the desired set is the one asked for last, and a calm end of the schedule leaves no sync waiting |
| BinanceSubscriptions.AfterAnyRun | tickfeeddmr/market_data/providers/binance/websocket.py:105-203 | after any run: the desired pairs are those asked for last, at most 1024, the server was told what is recorded, and with no sync due the open connection has the desired pairs; while nothing breaks a connection stays usable, and after a calm end no sync is due |
| AssetTriggers.NoSilentSaveIffSnapshotTrue | tickfeeddmr/market_data/services/crypto_asset_changes/triggers.py:24-45 | no save can change the row silently if and only if the snapshot says what the row says |
| AssetTriggers.TrueSnapshotPublishes | tickfeeddmr/market_data/models/crypto.py:90-109 | with a true snapshot a save that changes the row publishes |
| AssetTriggers.AnnouncesJustChanges | tickfeeddmr/market_data/services/crypto_asset_changes/triggers.py:24-45 | a raw save and one that names no tracked field announce nothing; with a whole and true snapshot a save announces if and only if it changes the row |
| AssetTriggers.SaveWrites | tickfeeddmr/market_data/models/crypto.py:81-110 | a save writes the loaded values of the fields it names, or of all, and loads the deferred fields it names and no others |
| AssetTriggers.SaveKeepsSnapshotTrue | tickfeeddmr/market_data/models/crypto.py:81-110 | a save, with the deferred fields it loads, keeps the snapshot true if and only if it does not publish while another loaded field holds an unwritten value |
| AssetTriggers.CreatedIsAsSelected | tickfeeddmr/market_data/services/crypto_asset_changes/triggers.py:36-45 | creating a row publishes, writes all values and leaves the instance as one just selected |
| AssetTriggers.AnnouncedIffNothingForgotten | tickfeeddmr/market_data/models/crypto.py:70-110 | over any list of saves of an instance, selected with any fields or built: at no point can the next save be silent if and only if no save publishes while it leaves a loaded value unwritten |
| AssetTriggers.TruthfulWhileNothingForgotten | tickfeeddmr/market_data/models/crypto.py:81-109 | until then the snapshot says what the row says |
| AssetTriggers.LostEvent | tickfeeddmr/market_data/models/crypto.py:81-110 | a concrete pair of saves whose second changes the trading pair silently |
| AssetTriggers.LostEventOfDeferredField | tickfeeddmr/market_data/models/crypto.py:81-110 | another, whose first save names, and so loads and announces, a deferred field |
| AssetChanges.ApplyKeepsCovered | tickfeeddmr/market_data/services/crypto_asset_changes/publisher.py:25-55 | commits, publications, failed publications and MAXLEN trimming never make an unseen commit untraceable |
| AssetChanges.ApplyKeepsFates | tickfeeddmr/market_data/services/crypto_asset_changes/publisher.py:25-55 | every commit after the first is in exactly one state: to be published, failed to be, or told of once in the stream |
| AssetChanges.TrimSparesNewest | tickfeeddmr/market_data/services/crypto_asset_changes/publisher.py:25-55 | MAXLEN may take any of the older entries and never the one just added |
| AssetChanges.NewsIsVisible | tickfeeddmr/market_data/services/crypto_asset_changes/listener.py:56-82 | a read returns something if and only if something was added after the cursor, trimmed or not |
| AssetChanges.Watcher.Start | tickfeeddmr/market_data/management/commands/stream_binance.py:47-67 | taking the newest id before the pairs leaves no commit unannounced |
| AssetChanges.Watcher.Reconcile | tickfeeddmr/market_data/management/commands/stream_binance.py:147-169 | what it hands over is at least as new as the last commit before it began |
| AssetChanges.Watcher.Turn | tickfeeddmr/market_data/management/commands/stream_binance.py:97-145 | a turn that finds news, or follows a reconnect, ends with a newer hand-over or an error; only then does the cursor move, behind all that was there or by as much as is read at once |
| AssetChanges.AfterAnyRun | tickfeeddmr/market_data/management/commands/stream_binance.py:47-67 | after any run every later commit is unpublished, announced beyond the cursor or a failed publication; with none of these the consumer has the committed pairs; a process that nothing kills follows the log to the end of its tape, and after a calm end long enough has read everything |
| AssetAnnouncements.TracedIffNotSilent | tickfeeddmr/market_data/services/crypto_asset_changes/triggers.py:24-45 | after a save the follower of the log can account for every commit if and only if the save did not change the active pairs silently |
| AssetAnnouncements.OwnFollowsTheRow | tickfeeddmr/market_data/management/commands/stream_binance.py:197-205 | an asset adds its pair to the active ones while it is active and of Binance |
| AssetAnnouncements.TracedWhileNothingForgotten | tickfeeddmr/market_data/services/crypto_asset_changes/triggers.py:24-64 | from a true snapshot on, saves that forget nothing, commits of other assets and whatever the log does leave every commit accounted for |
| Quota.ReserveBalanced | tickfeeddmr/ai/services/quota/counter.py:29-39 | the script keeps each day's counters equal to what the steps left there, within the limits |
| Quota.SettleBalanced | tickfeeddmr/ai/services/quota/counter.py:113-121 | so does a settlement, on whatever day it happens |
| Quota.AlwaysBalanced | tickfeeddmr/ai/services/quota/counter.py:29-121 | after every interleaving: tokens of a day are the sum of what steps left on it, requests the admitted steps and at most the limit, tokens at most the limit plus the overruns settled that day |
| Quota.AdmittedIffItFits | tickfeeddmr/ai/services/quota/counter.py:29-39 | after every interleaving a step is admitted if and only if one request and its estimate fit beside what the steps so far left on that day |
| Quota.OverrunIsExcess | tickfeeddmr/ai/services/quota/counter.py:113-121 | an overrun is what a step left on a day beyond what it reserved there |
| Quota.TokensConserved | tickfeeddmr/ai/services/quota/counter.py:95-121 | over all days the tokens are the real use of settled steps plus the reservations of the others |
| Quota.AbandonedStaysCharged | tickfeeddmr/ai/services/quota/counter.py:95-111 | steps never settled stay charged in full |
| Quota.Redis.EvalReserve | tickfeeddmr/ai/services/quota/counter.py:29-39 | the script as a transition of the shared state: it admits exactly what fits both limits; refused, it changes nothing |
| Quota.DailyQuota.EnsureAvailable | tickfeeddmr/ai/services/quota/counter.py:85-93 | passes if and only if both counters are below the limits, and then some reservation would be admitted |
| Quota.DailyQuota.ReserveStep | tickfeeddmr/ai/services/quota/counter.py:95-111 | success, refusal and a lost answer, each with the state it leaves |
| Quota.DailyQuota.SettleStep | tickfeeddmr/ai/services/quota/counter.py:113-121 | success replaces the reservation by the real use in the sum over all steps |
| Chat.EstimatedStepOverruns | tickfeeddmr/ai/services/chat/accounting.py:30-56 | without a report a step overruns its reservation if and only if its answer has more than three characters per reserved completion token |
| Chat.TokensOfCosts | tickfeeddmr/ai/services/chat/accounting.py:40-56 | a step costs what the last usage report says; without one its two parts are the lengths of what was sent and of what came back, three characters a token, rounded up |
| Chat.ReservationIs | tickfeeddmr/ai/services/chat/accounting.py:34-37 | what is reserved is the length of what is sent in tokens, rounded up, and the reserve for the answer |
| Chat.ReservationGrows | tickfeeddmr/ai/services/chat/accounting.py:30-33 | a longer transcript never reserves less |
| Chat.StreamStep | tickfeeddmr/ai/services/chat/step.py:29-55 | the text goes out piece by piece as it comes, and the result is what was streamed: its text, its calls in order, the last usage report |
| Chat.RunToolCalls | tickfeeddmr/ai/services/chat/tool_step.py:24-41 | one tool message per call, in order and with its id; the first call that raises, within the limit, ends it; calls over the limit do not run |
| Chat.TranscriptWellFormed | tickfeeddmr/ai/services/chat/loop.py:87-95 | after the prompt a transcript is rounds of one assistant message and one answer per call |
| Chat.RequestsWellFormed | tickfeeddmr/ai/services/chat/loop.py:53-95 | so is every request of a run |
| Chat.RunStats.AddStep | tickfeeddmr/ai/services/chat/run_stats.py:34-37 | adds the step's tokens and remembers an estimate |
| Chat.Ask | tickfeeddmr/ai/services/chat/loop.py:53-75 | the first half of a step: what was reserved, sent, shown and settled, and which of the three failed; the totals grow by what the step costs if its stream ended well |
| Chat.UseTools | tickfeeddmr/ai/services/chat/loop.py:87-95 | the second half: the events of the tools, the calls recorded, and the round it adds to the transcript, or the exception |
| Chat.Steps | tickfeeddmr/ai/services/chat/loop.py:39-95 | for every script: at most the allowed number of requests, each with the whole transcript, the last without tools; the events of every step in order; one terminal event at the end or an exception, and which |
| Chat.AllChargedRight | tickfeeddmr/ai/services/chat/loop.py:53-75 | every request is settled at the sum of what its step costs, and reserves what its transcript makes |
| Chat.RunEventsShow | tickfeeddmr/ai/services/chat/loop.py:59-95 | the text in the events of a run is the text the model streamed, and nothing in them ends it |
| Chat.RunChat | tickfeeddmr/ai/services/chat/loop.py:98-139 | exactly one Done or Error, then exactly one summary, nothing after it, before them the events of the steps; done if and only if Done; the summary has the prompt and completion tokens of the steps whose stream ended well and the calls that went to tools; every request charged right |
| MoexPolling.InsertKeeps | tickfeeddmr/market_data/services/moex_ingest.py:121-148 | an insert-ignore of a page stores it and keeps every stored trade |
| MoexPolling.StepKeepsInv | tickfeeddmr/market_data/services/moex_polling/trades.py:139-181 | every step of every run, in any interleaving and without any lock, keeps the resume invariant |
| MoexPolling.ResumeInvariant | tickfeeddmr/market_data/services/moex_polling/trades.py:139-181 | after any history every trade at or below the saved cursor is stored as the feed had it, from where the read without a cursor began that this cursor comes from; reads of other runs do not move that |
| MoexPolling.OnlyFeedTrades | tickfeeddmr/market_data/services/moex_ingest.py:133-148 | nothing else is stored, each trade under its own number |
| MoexPolling.NothingForgotten | tickfeeddmr/market_data/services/moex_polling/trades.py:162-165 | with a feed that keeps its trades, that read began at the first trade |
| MoexPolling.ShortPageIsTheEnd | tickfeeddmr/market_data/services/moex_polling/trades.py:173-175 | a page shorter than 5000 from a feed that gives all it has leaves nothing unread from where the run's cursor comes from |
| MoexPolling.CursorNeverGoesBack | tickfeeddmr/market_data/services/moex_polling/trades.py:139-181 | the cursor never goes back if only the holder of the lock acts and takes it with an up-to-date cursor |
| MoexPolling.LockedRunTakesCursorBack | tickfeeddmr/market_data/services/moex_polling/trades.py:69-91 | under the lock alone it can: a history in which it does |
| MoexPolling.PagesNotBehind | tickfeeddmr/market_data/services/moex_polling/trades.py:152-175 | if the first trade to read is not before the saved cursor, the run stands at or after it after any number of pages, while the feed grows |
| MoexPolling.LoadedCursorIsSafeIff | tickfeeddmr/market_data/services/moex_polling/trades.py:139-181 | no run of any number of pages takes the saved cursor back if and only if the first trade behind the loaded cursor is not before it |
| MoexPolling.ReadOnEnds | tickfeeddmr/market_data/services/moex_polling/trades.py:152-177 | over a feed that gives full pages a run ends all its pages further on, or at the end of the feed |
| MoexPolling.FullPagesAreSafeIff | tickfeeddmr/market_data/services/moex_polling/trades.py:139-181 | over such a feed a run takes the saved cursor back if and only if that cursor is after the last trade of all its full pages |
| MoexPolling.World.GetTradesPage | tickfeeddmr/market_data/services/moex_polling/trades.py:156-165 | a page is an unbroken stretch of the feed right behind the cursor |
| MoexPolling.World.WriteTrades | tickfeeddmr/market_data/services/moex_ingest.py:121-148 | a write that succeeds stores the whole page, and the cursor in memory then stands behind it; one that fails has stored all of it or nothing |
| MoexPolling.World.PollPage | tickfeeddmr/market_data/services/moex_polling/trades.py:153-175 | one turn of the page loop: the stretch read, stored and selected from grows by the page, or the run is over; it fails only if the feed or the table does |
| MoexPolling.World.ReadPages | tickfeeddmr/market_data/services/moex_polling/trades.py:152-177 | the page loop: one unbroken stretch, all of it stored and selected from; the page limit was hit if and only if every page was full |
| MoexPolling.World.PollAsset | tickfeeddmr/market_data/services/moex_polling/trades.py:132-193 | a run that ends well has read and stored one unbroken stretch of the feed behind its cursor, published the newest of its trades that are not older than the cutoff, as many as asked for and in order, and saved where it got to, not before the cursor saved at its start if its first trade is not; if every reply is good it ends well, and over a feed that gives full pages it has caught up unless the page limit was hit |
| MoexPolling.World.Poll | tickfeeddmr/market_data/services/moex_polling/trades.py:69-93 | a run that is over afterwards and enters exactly if the lock is free when it asks; trades and feed only grew; what it published are the newest fresh trades of a stored stretch of the feed behind the cursor loaded at the start, nothing unless it entered and ended well; if every reply is good it does, and over a feed that gives full pages it has caught up unless the page limit was hit |
| MoexPolling.AfterAnyRuns | tickfeeddmr/market_data/services/moex_polling/trades.py:132-193 | any runs among any others, each of them carried out, end in a table that is complete up to the cursor and holds feed trades only |
| MoexPolling.SelectedGrows | tickfeeddmr/market_data/services/moex_polling/trades.py:170-172 | selecting page by page from fresh trades is selecting once from all of them |
| MoexPolling.SelectedIsNewest | tickfeeddmr/market_data/services/moex_polling/trades.py:170-172 | of a stretch of trades exactly the newest are selected that are not older than the cutoff, as many as asked for, in order of moment and number |
| DailyCandles.InsertStretch | tickfeeddmr/market_data/services/daily_candles/crypto.py:117-130 | inserting a stretch that starts inside the table extends the table to its end, whatever overlaps |
| DailyCandles.StepKeepsInv | tickfeeddmr/market_data/services/daily_candles/crypto.py:91-130 | every step of overlapping catch-ups keeps the table a beginning of the source |
| DailyCandles.CompletePrefix | tickfeeddmr/market_data/services/daily_candles/crypto.py:91-130 | after any history the rows are exactly the source's candles up to the latest stored day, each once |
| DailyCandles.FetchAndWriteCatchUp | tickfeeddmr/market_data/services/daily_candles/crypto.py:101-130 | a run that gets through leaves nothing out up to the asked-for day |
| DailyCandles.InRangeIs | tickfeeddmr/market_data/services/daily_candles/crypto.py:156-177 | a range of an ascending source holds exactly the candles of its days, ascending |
| DailyCandles.World.FetchByDate | tickfeeddmr/market_data/services/daily_candles/crypto.py:156-177 | terminates and returns exactly the range, while the source grows |
| DailyCandles.World.FetchByOffset | tickfeeddmr/market_data/services/daily_candles/stock.py:169-191 | the same for paging by offset |
| DailyCandles.World.WriteCandles | tickfeeddmr/market_data/services/daily_candles/crypto.py:114-130 | all rows or none, also when the answer is lost; after a success, that is if there was nothing to write or the insert was answered, everything up to the asked-for day that the source had at the read is stored |
| DailyCandles.World.CatchUpCrypto | tickfeeddmr/market_data/services/daily_candles/crypto.py:79-130 | a success leaves nothing out up to `until`, and reports how many candles there were; up to date means nothing to do; it succeeds if every reply is good, after `until + 4` waits at most |
| DailyCandles.World.CatchUpStock | tickfeeddmr/market_data/services/daily_candles/stock.py:82-144 | the same, also when the first day is asked from the source; then it also fails if the source has none |
| DailyCandles.StartsAsWell | tickfeeddmr/market_data/services/daily_candles/stock.py:105-112 | starting at the first available candle is starting at the beginning |
| DailyCandles.FirstMissingFollows | tickfeeddmr/market_data/services/daily_candles/cursor.py:13-15 | the day after the latest row lies right behind the stored part of the source |
| DailyCandles.AfterAnyRuns | tickfeeddmr/market_data/services/daily_candles/stock.py:82-144 | any catch-ups among any others, each tried in its turn, end in a complete beginning of the source without duplicates |
| Keyset.CursorRoundTrip | tickfeeddmr/market_data/services/queries/cursor.py:22-41 | decoding an encoded cursor gives it back |
| Keyset.DecodeAcceptsIff | tickfeeddmr/market_data/services/queries/cursor.py:28-41 | a text decodes to a cursor if and only if it is its moment, one bar and its number |
| Keyset.DecodeRefuses | tickfeeddmr/market_data/services/queries/cursor.py:28-41 | every other text, and only such, is an invalid cursor |
| Keyset.OrderedIsFalling | tickfeeddmr/market_data/services/queries/cursor.py:57-63 | the query returns exactly the rows past the cursor, strictly falling |
| Keyset.PageLeavesOutWhatFollows | tickfeeddmr/market_data/services/queries/cursor.py:44-70 | a page leaves out exactly the rows past its end; there is a next cursor if and only if there are more rows than the limit |
| Keyset.FollowFalls | tickfeeddmr/market_data/services/queries/cursor.py:44-70 | following the cursors returns strictly falling rows, whatever happens to the table |
| Keyset.EveryRowOnce | tickfeeddmr/market_data/services/queries/cursor.py:44-70 | followed to the end, every row that was there all the time comes exactly once |
| Keyset.FollowEnds | tickfeeddmr/market_data/services/queries/cursor.py:64-70 | over a table at rest the end is reached |
| Locks.AlwaysInv | tickfeeddmr/market_data/services/locks.py:57-68 | a run inside the block holds the key until its time is over, in every history |
| Locks.RunsAreSerial | tickfeeddmr/market_data/services/locks.py:37-68 | of two runs that got the lock the later one entered after the earlier left or outlived its time |
| Locks.NoOverlapWithinTtl | tickfeeddmr/market_data/services/locks.py:37-68 | if every run finishes in time no two are in the block together |
| Locks.LiveKeyStays | tickfeeddmr/market_data/services/locks.py:28-34 | only its owner removes a live key |
| Locks.OwnerFrees | tickfeeddmr/market_data/services/locks.py:62-66 | the owner, in time, does |
| Locks.LateRunOverlaps | tickfeeddmr/market_data/services/locks.py:52-56 | a run over its time can share the block, and its release spares the other's key |
| Locks.Redis.RedisLock | tickfeeddmr/market_data/services/locks.py:37-68 | what happens elsewhere happens between taking and leaving the lock; a block that ends in time had no other run in it and leaves the lock free |
| CalendarPeriods.OrdinalOrders | tickfeeddmr/ai/services/tools/stats/periods.py:66-70 | dates are ordered and told apart by their day numbers |
| CalendarPeriods.YesterdayIsOneLess | tickfeeddmr/ai/services/tools/stats/periods.py:69 | a day earlier is one day number less; only the first day of the year 1 has none |
| CalendarPeriods.MonthLengths | tickfeeddmr/ai/services/tools/stats/periods.py:35-49 | the lengths of the months, and that the periods of a year have equally many months |
| CalendarPeriods.DateInItsPeriodOnly | tickfeeddmr/ai/services/tools/stats/periods.py:22-49 | a date has a key if and only if it lies within the bounds of that key |
| CalendarPeriods.KeyIsMonotone | tickfeeddmr/ai/services/tools/stats/periods.py:22-32 | later dates never have earlier keys |
| CalendarPeriods.PeriodsAdjoin | tickfeeddmr/ai/services/tools/stats/periods.py:35-49 | a period begins on the day after the previous one ends, leap years included |
| CalendarPeriods.PreviousPeriodIsTheOneBefore | tickfeeddmr/ai/services/tools/stats/periods.py:66-70 | the start of the period whose successor holds the date; it overflows in the first period of the year 1 only |
| PeriodStats.LargestFallUnique | tickfeeddmr/ai/services/tools/stats/periods.py:73-79 | there is one largest fall and it lies in [0, 1) |
| PeriodStats.MaxDrawdown | tickfeeddmr/ai/services/tools/stats/periods.py:73-79 | one pass finds the largest fall between any two prices in order, the base first |
| PeriodStats.GroupsPartition | tickfeeddmr/ai/services/tools/stats/periods.py:112-113 | the groups joined are the candles, each group of one key and not empty |
| PeriodStats.GroupKeysAscend | tickfeeddmr/ai/services/tools/stats/periods.py:112-113 | for candles sorted by date the keys strictly ascend, so a group is a whole period |
| PeriodStats.WholePeriod | tickfeeddmr/ai/services/tools/stats/periods.py:107-108 | a row is not partial if and only if every day of its period was asked for, is in the history and is not to come |
| PeriodStats.RowFor | tickfeeddmr/ai/services/tools/stats/periods.py:118-136 | return, drawdown, volume change and the partial mark of one period, from its group, its base and the volume before |
| PeriodStats.PeriodRows | tickfeeddmr/ai/services/tools/stats/periods.py:94-138 | one row per period whose key is not before the first, in order, each measured from the close before it |
| PeriodStats.GrowthChains | tickfeeddmr/ai/services/tools/stats/periods.py:109-137 | the growth factors multiply to the last close over what the first row is measured from |
| PeriodStats.DaysAdd | tickfeeddmr/ai/services/tools/stats/periods.py:128 | the trading days add up to the candles of the periods shown |
| PeriodStats.AverageIsBetween | tickfeeddmr/ai/services/tools/stats/periods.py:116-127 | an average volume lies between the bounds of the volumes |
| PeriodStats.AverageJoins | tickfeeddmr/ai/services/tools/stats/periods.py:116-127 | the averages of two stretches join, weighted by their days |
| PeriodStats.VolumeChangeLeads | tickfeeddmr/ai/services/tools/stats/periods.py:116-136 | the volume change of a row leads from the average volume of the group before to its own; there is none for the first group and after a group without volume |
| PeriodStats.PeriodRowsAddUp | tickfeeddmr/ai/services/tools/stats/periods.py:94-138 | said of the candles: every candle with a key from the first on counts once, and the factors chain from the close before the first of them to the last close |
| Indicators.SmoothedNonNegative | tickfeeddmr/ai/services/tools/stats/indicators.py:30-34 | a smoothed average of non-negative values vanishes only if all of them do |
| Indicators.SmoothedIsWeighted | tickfeeddmr/ai/services/tools/stats/indicators.py:30-34 | the smoothed average is one weighted sum: the first `period` values weigh the same, each later one 1/period, and every step fades what came before by (period − 1)/period |
| Indicators.GainAndLossAreWeighted | tickfeeddmr/ai/services/tools/stats/indicators.py:25-34 | gain and loss are those sums of the rises and of the falls between adjacent prices |
| Indicators.Rsi | tickfeeddmr/ai/services/tools/stats/indicators.py:25-37 | None if and only if the history is too short; otherwise 100·gain/(gain + loss) of the weighted rises and falls of the prices, 50 when nothing moved, always in [0, 100] |
| Indicators.RsiExtremes | tickfeeddmr/ai/services/tools/stats/indicators.py:25-37 | for periods of two and more, as the 14 in use: 100 if and only if no price is below the one before it and some is above, 0 if and only if none is above and some is below |
| Indicators.RsiScaleInvariant | tickfeeddmr/ai/services/tools/stats/indicators.py:25-37 | the index does not depend on the unit of the prices |
| Indicators.RsiMirror | tickfeeddmr/ai/services/tools/stats/indicators.py:25-37 | prices upside down have 100 less the index |
| ChatHistory.TrimLeaves | frontend/src/query/hooks/useChat.ts:33 | trimming leaves nothing exactly of a blank text, and otherwise the text without the white space at its ends, for JavaScript's white space and for Python's |
| ChatHistory.EdgesOfText | frontend/src/query/hooks/useChat.ts:33 | where the ranges of white space begin and end on either side, and from which character on a length counts two |
| ChatHistory.HistoryHas | frontend/src/query/hooks/useChat.ts:38-44 | every message of the user's and every finished reply has its place in the history, in order, and nothing else has |
| ChatHistory.Exchange | frontend/src/query/hooks/chatState.ts:46-99 | an exchange whose reply arrives in any pieces: what the window shows when it is done, stopped or failed, and what of it counts as history |
| ChatHistory.LongestOfAll | frontend/src/query/hooks/useChat.ts:45-50 | among the ends of the history of at most the allowed number of messages no longer one than that sent fits |
| ChatHistory.TrimHistory | frontend/src/query/hooks/useChat.ts:45-50 | the longest end of the last messages that fits and starts with the user, or the new message alone, said of the last messages and of the whole history; lengths in UTF-16 units |
| ChatHistory.Send | frontend/src/query/hooks/useChat.ts:31-53 | when something is sent, what is sent, and the next state of the window |
| ChatHistory.FirstBadFinds | tickfeeddmr/ai/services/chat/history.py:25-33 | the server complains about a message if and only if one is blank to Python or too long, and names a bad one |
| ChatHistory.EndMeetsLimits | tickfeeddmr/ai/services/chat/history.py:16-43 | what is sent, measured in UTF-16 units, meets the server's limits on count and total length in code points and ends with the new message |
| ChatHistory.AcceptedIffMessagesOk | tickfeeddmr/ai/services/chat/history.py:14-44 | the server accepts it if and only if no message in it is blank or too long, and then takes every message without the white space at its ends |
| ChatHistory.UsersStayOk | frontend/src/query/hooks/useChat.ts:33-36 | in every session the user's own entries are not empty, not too long and have no client white space at their ends |
| ChatHistory.UserMessagePasses | tickfeeddmr/ai/services/chat/history.py:25-33 | such an entry passes the server if and only if it is not white space throughout to Python; if it is, it begins and ends with one of five separators |
| ChatHistory.AcceptedIff | tickfeeddmr/ai/services/chat/history.py:14-44 | in any session the server accepts what is sent if and only if every reply in it is neither blank nor too long and every message of the user's has a character that is not white space to Python |
| ChatHistory.SeparatorIsRefused | tickfeeddmr/ai/services/chat/history.py:25-28 | a lone U+001C is sent and refused |
| ChatHistory.EmptyReplyIsRefused | tickfeeddmr/ai/services/chat/history.py:25-28 | a reply without text makes the next request fail |

## Left out

- Clients of Redis, Postgres, HTTP and WebSocket: their calls are steps that succeed, fail, or take effect without an answer.
- Text formats: JSON, base64, ISO dates, decimals and stream ids as text are values or inverse pairs of functions.
- Retry delays, back-off, the throttle before control messages and the replies to them; warning flags, key expiry of the quota hash, log lines, message texts.
- A dead hub: a subscriber that joins one gets nothing in the program, and the models do not say otherwise.
- Fiat history, which the program allows to have gaps.
- The events of an instance saved again after a rollback, and commits made through `QuerySet.update` or `bulk_create`, which send no signals.
- Simple moving averages, the 52-week range, volatility and rounding of statistics.
- React components, presenters, routers, models' options and settings validation.
- TradePipeline.RowsExactlyOnce: needs that no write raised and nothing was cut off by the ceiling, because such batches are lost by design; the asset table is fixed.
- StreamHub.PrivateBatchIsSelectPerGroup: equal as sorted multisets; between equal order keys the iteration order of the wanted set decides in the program.
- BinanceSubscriptions.AfterAnyRun: says nothing of a connection on which a send failed; the program waits for its end.
- MoexPolling.ResumeInvariant: assumes a feed in ascending order without holes behind a cursor; one asset, since assets share nothing but the lock. Trades the feed forgot before the first read cannot be stored.
- MoexPolling.CursorNeverGoesBack: one direction over whole histories; the exact condition is stated for any whole run that follows (MoexPolling.LoadedCursorIsSafeIff), which acts alone while the feed grows.
- DailyCandles.CompletePrefix: assumes a source that only appends later days.
- Keyset.EveryRowOnce: rows that are removed or re-dated while the pages are read are not covered.
- Locks.RunsAreSerial: tokens never repeat; the program draws 128 random bits.
- PeriodStats.MaxDrawdown: prices are positive, as the program's divisions demand.
- Chat.RunChat: the reader takes the events to the end; a client that disconnects is not modelled.
- PeriodStats.RowFor: leaves out the volatility, the label and the rounding of the row.
- PeriodStats.PeriodRows: leaves out the same of every row.
- AssetTriggers.AnnouncedIffNothingForgotten: the saves of one instance, with no other writer of its row between them; raw saves of fixtures, which never announce, are not among them.
- AssetAnnouncements.TracedWhileNothingForgotten: commits of other assets are taken to be announced.
- ChatHistory.AcceptedIff: lone halves of surrogate pairs, which are not characters, do not occur in texts.
