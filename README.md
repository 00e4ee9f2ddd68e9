# Deep MM API example clients, modelled in Dafny

This project models the core of the Python example clients of the Deep MM websocket API
(`examples/python/` of the repository):

- **The year-long bulk evaluation script** (`get_timestamp_predictions.py`) plans requests. Every
  FIGI is paired with the 9:00 and 16:00 US/Eastern time of every weekday of a year, under four
  side/ATS combinations, and the plan is cut into batches of 1500. The script sends the batches
  over one websocket and uses two cooperating coroutines: a sender and a receiver. They
  coordinate through a `SharedState` that handles throttling retries, marks batches processed
  and watches liveness. A reconnection loop runs up to `MAX_RECONNECT_ATTEMPTS + 1` attempts.
  The model is in modules `Calendar`, `Planner`, `Session` and `Supervisor`.
- **The batch-resumable evaluation script** (`new_get_timestamp_predictions.py`) covers August 1st
  to today. It sends one request per bond and variant, restricted to the bond's lifetime, in
  batches sized so that each carries at most 32000 timestamps. `retrieve_batch` counts
  answers, times out and retries with capped exponential back-off. A shared `batch_delay`
  grows on failures. Results are written into a JSON-array file.
  The model is in modules `Calendar`, `Retriever` and `Framing`.
- **The OpenFIGI mapping** (`cusips_to_figis.py`, and the ISIN copy inside both subscription scripts)
  buffers jobs into requests of at most 90, with a half-second rate limit between requests. It
  pairs each job with its reply, keeps single-match replies and builds the two dictionaries.
  The model is in module `OpenFigi`.
- **The two live subscription scripts** (`subscribe_price_variations.py`,
  `subscribe_price_variations_and_trades.py`) each build a subscription list from the
  `itertools.product` of sides, ATS flags, quantities and labels. They stream results, annotate
  them with ISINs and route every frame to an output file. The trades script reconnects on
  any exception or revocation. The model is in modules `Subscriptions`, `Annotation` and
  `Routing`.
- **`connect`** (`connection.py`) retries forever with capped linear counters.
  The model is in module `Connection`.

Shared vocabulary:

- `Wrappers`: Option and Result.
- `Json`: JSON values, plus Python's `len`, `lower`, and `in` on dictionaries, lists and strings.
- `Requests`: the wire records.
- `Batching`: `range(0, n, k)` slicing, `chain` and the block arithmetic of nested loops.
- `Arith`: powers, `min` and `max`.

External effects are inputs:

- Clocks: functions from step index to reading.
- The OpenFIGI HTTP post: a function from the job group to its replies or an error.
- Whether each websocket connection opens, and what frames it delivers: input scripts.
- The US/Eastern to UTC conversion: a function parameter.
- The order in which the two coroutines resume: an input script.

The repository's prose describes some behaviour of the bulk scripts that the code does not
have: jitter in back-off, a global cooldown, a capped retry delay, and reconnection triggered by
a receiver timeout. The model follows the code.

## Model

| member | source | states |
|---|---|---|
| Connection.Connect | examples/python/connection.py:8-25 | Returns at the first attempt that opens, and only if one does. Attempt k has open timeout min(60, 1+k); the k-th pause is min(10, k) seconds. |
| Connection.ConnectAsCalled | examples/python/subscribe_price_variations_and_trades.py:172-173 | Calling the parameterless `connect` with an address raises before any attempt. A call without one dials SERVER with the same timeouts. |
| Connection.CountersMonotone | examples/python/connection.py:10-25 | Both counters start at 1 and 0, never decrease and stay within their caps, which they reach after 59 and 10 failures. |
| Connection.TotalSleepClosed | examples/python/connection.py:23-25 | After n failures the script has slept n(n−1)/2 seconds up to the cap, then 10 more per failure. |
| OpenFigi.RateLimitWait | examples/python/cusips_to_figis.py:92-94 | The sleep is non-negative. The request then goes out at least 0.5 s after the last response and no later than needed. The script sleeps exactly when less than 0.5 s has passed. |
| OpenFigi.ZipSpec | examples/python/cusips_to_figis.py:106-107 | `zip` pairs equal positions, up to the shorter side. |
| OpenFigi.PrependTwice | examples/python/cusips_to_figis.py:113-116 | Yielding two runs of pairs in turn is yielding their concatenation. |
| OpenFigi.MapChunksCons | examples/python/cusips_to_figis.py:95-116 | A failing group raises and ends the mapping after its one request. A successful group yields its zipped pairs before the rest. |
| OpenFigi.JobGroups | examples/python/cusips_to_figis.py:110-116 | The requests carry consecutive groups of 90 jobs, the last possibly shorter, none empty, together all the jobs in order. |
| OpenFigi.JobMapper.constructor | examples/python/cusips_to_figis.py:85-87 | The buffer starts empty, nothing has been yielded, and the last response time is 0. |
| OpenFigi.JobMapper.ProcessBatch | examples/python/cusips_to_figis.py:89-108 | An empty buffer does nothing. Otherwise the script sleeps out the rate limit and posts. A failure raises and keeps the buffer. A success records the response time, yields the zipped pairs and clears the buffer. |
| OpenFigi.MapJobs | examples/python/cusips_to_figis.py:68-116 | The generator yields the group-wise mapping of the 90-job groups, and raises at the first failing group. Every request sent sleeps its rate-limit wait. |
| OpenFigi.Push | examples/python/cusips_to_figis.py:110-114 | One loop turn keeps the buffer a prefix of the next group and keeps the yielded pairs on track with the group-wise mapping. |
| OpenFigi.Flush | examples/python/cusips_to_figis.py:112-116 | Processing a full buffer, or the final partial one, yields the mapping of that group and empties the buffer. |
| OpenFigi.MatchesSpec | examples/python/cusips_to_figis.py:128-134 | A match is collected exactly when its reply's 'data' holds exactly one entry, at most one per reply. |
| OpenFigi.ColumnSnoc | examples/python/cusips_to_figis.py:132-134 | One more match appends exactly its cell to each column. |
| OpenFigi.InColumn | examples/python/cusips_to_figis.py:123-134 | A value is in a column exactly when it is the cell of some single-match reply. |
| OpenFigi.ColumnsDistinct | examples/python/cusips_to_figis.py:44-55 | The eleven column names are distinct, and 'cusip' comes first. |
| OpenFigi.CollectColumns | examples/python/cusips_to_figis.py:123-134 | `open_figi_data` has exactly the eleven columns, each holding its column of the counted matches. |
| OpenFigi.AppendMatch | examples/python/cusips_to_figis.py:132-134 | One counted reply extends every column by its own cell and keeps the column set. |
| OpenFigi.DictMember | examples/python/cusips_to_figis.py:137-138 | Every pair's key is a key of `dict(pairs)`. |
| OpenFigi.DictKeyAt | examples/python/cusips_to_figis.py:137-138 | Every key of `dict(pairs)` comes from some pair. |
| OpenFigi.DictLast | examples/python/cusips_to_figis.py:137-138 | A key maps to the value of the last pair that has it. |
| OpenFigi.DictOfSpec | examples/python/cusips_to_figis.py:137-138 | The keys are exactly the pairs' keys, and each maps to its last pair's value. |
| OpenFigi.ZipDicts | examples/python/cusips_to_figis.py:137-138 | The keys of both dictionaries are the entries of the two columns. An entry that is not repeated later maps to the entry beside it. |
| OpenFigi.DictInverse | examples/python/cusips_to_figis.py:137-138 | With no repeats on either side, the dictionary of swapped pairs undoes the dictionary. |
| OpenFigi.ZipDictsInverse | examples/python/cusips_to_figis.py:137-138 | With distinct columns, `dict(zip(b, a))` undoes `dict(zip(a, b))`. |
| OpenFigi.MapCusipsToFigis | examples/python/cusips_to_figis.py:43-140 | A failed request raises. Otherwise the result is the two dictionaries of the single-match replies' 'cusip' and 'figi' columns, and the requests sleep their rate-limit waits. |
| OpenFigi.CusipDictKeys | examples/python/cusips_to_figis.py:123-138 | A CUSIP is a key exactly when one of its replies had a single match. A FIGI key is exactly the 'figi' field, or '', of such a match. |
| OpenFigi.CusipDictsInverse | examples/python/cusips_to_figis.py:137-138 | With distinct CUSIPs and FIGIs, `figi_to_cusip` undoes `cusip_to_figi`. |
| OpenFigi.CollectIsins | examples/python/subscribe_price_variations.py:49-59 | Gives the two lists when every counted match has 'figi'. Otherwise it raises the KeyError. |
| OpenFigi.MapIsinsToFigis | examples/python/subscribe_price_variations.py:7-65 | Raises on a failed request or on a match without 'figi'. Otherwise gives `isin_to_figi` and `figi_to_isin` of the single-match replies; the requests sleep their rate-limit waits. |
| OpenFigi.IsinDictKeys | examples/python/subscribe_price_variations.py:49-63 | An ISIN is a key exactly when one of its replies had a single match. It maps to the FIGI of its last such match. |
| OpenFigi.IsinDictsInverse | examples/python/subscribe_price_variations.py:62-63 | With distinct ISINs and FIGIs, `figi_to_isin` undoes `isin_to_figi`. |
| Subscriptions.AtsCombosLength | examples/python/subscribe_price_variations.py:117 | One (side, ATS) block of the product holds |quantities|·|labels| tuples. |
| Subscriptions.SideCombosLength | examples/python/subscribe_price_variations.py:117 | One side's block holds |atss|·|quantities|·|labels| tuples. |
| Subscriptions.ProductLength | examples/python/subscribe_price_variations.py:117 | The product has one tuple per choice of the four factors. |
| Subscriptions.AtsCombosAt | examples/python/subscribe_price_variations.py:117 | Inside a (side, ATS) block, position q·|labels|+l is quantity q with label l. |
| Subscriptions.SideCombosAt | examples/python/subscribe_price_variations.py:117 | Inside a side's block, the a-th ATS block starts at a·|quantities|·|labels|. |
| Subscriptions.ProductAtOffset | examples/python/subscribe_price_variations.py:117 | The product's position, written as nested block offsets, holds the chosen side, ATS flag, quantity and label. |
| Subscriptions.ProductAt | examples/python/subscribe_price_variations.py:117 | Position ((s·|A|+a)·|Q|+q)·|L|+l is (sides[s], atss[a], qtys[q], labels[l]): lexicographic order with the last factor fastest. |
| Subscriptions.ScriptProductSizes | examples/python/subscribe_price_variations.py:102-117 | The price script has 40 combinations per FIGI and the trades script 20. |
| Subscriptions.Variations | examples/python/subscribe_price_variations.py:117-125 | One request per product tuple. |
| Subscriptions.BuildInferenceList | examples/python/subscribe_price_variations.py:112-125 | The nested loops build the inference list of the mapped ISINs over the script's product. |
| Subscriptions.AppendVariations | examples/python/subscribe_price_variations.py:117-125 | The inner loop appends exactly one FIGI's variations. |
| Subscriptions.InferenceListShape | examples/python/subscribe_price_variations.py:112-125 | The list is the mapped FIGIs' variations in order: |mapped|·|combos| requests, each a live subscription without a timestamp. |
| Subscriptions.TradeList | examples/python/subscribe_price_variations_and_trades.py:145-154 | One trade subscription per mapped ISIN. |
| Subscriptions.BuildTradeList | examples/python/subscribe_price_variations_and_trades.py:145-154 | The loop builds exactly the trade list. |
| Subscriptions.TradeListMatchesInference | examples/python/subscribe_price_variations_and_trades.py:129-154 | The k-th trade subscription and the k-th block of inference requests name the same FIGI. |
| Subscriptions.MappedFigisSpec | examples/python/subscribe_price_variations.py:113-116 | The subscribed FIGIs are exactly the non-empty dictionary images of the input ISINs. |
| Annotation.IsinOf | examples/python/subscribe_price_variations.py:162 | `.get` raises exactly for an unhashable FIGI. It gives the mapped ISIN when present, else 'unknown'. |
| Annotation.AnnotateItemSpec | examples/python/subscribe_price_variations.py:160-162 | A labelled dictionary gets 'isin' set from its 'figi', and raises when 'figi' is missing or unhashable. Dictionaries without a label, lists without a label element and strings without a label substring are kept as they are. Anything else raises. |
| Annotation.AnnotateItemIdempotent | examples/python/subscribe_price_variations.py:160-162 | Annotating an annotated item changes nothing. |
| Annotation.AnnotationRecoversIsin | examples/python/subscribe_price_variations.py:62-63 | With the OpenFIGI dictionaries and no repeats, an item carrying a mapped ISIN's FIGI is annotated with that ISIN. |
| Annotation.MapItemsSpec | examples/python/subscribe_price_variations.py:159-162 | The loop succeeds exactly when every element's body does, and then rewrites each element. |
| Annotation.MapItemsFirstError | examples/python/subscribe_price_variations.py:159-162 | The first raising element's exception is the one raised. |
| Annotation.AnnotatedInferenceSpec | examples/python/subscribe_price_variations.py:157-162 | For a list, succeeds exactly when every item annotates, and rewrites each item. A string is unchanged. A dictionary raises exactly when some key contains a label. |
| Annotation.AnnotatedInferenceIdempotent | examples/python/subscribe_price_variations.py:159-162 | Annotating a written response again leaves it unchanged. |
| Annotation.AnnotatedTradesSpec | examples/python/subscribe_price_variations_and_trades.py:233-236 | A list succeeds exactly when every trade is a dictionary with a hashable 'figi'; then each trade gains 'isin' and keeps its other fields. Strings and dictionaries succeed only when empty. |
| Annotation.AnnotateInference | examples/python/subscribe_price_variations.py:159-162 | The in-place loops compute the specified annotation or exception. |
| Annotation.AnnotateItemsInPlace | examples/python/subscribe_price_variations.py:159-162 | The outer loop over a list rewrites it as the element-wise annotation. |
| Annotation.AnnotateOne | examples/python/subscribe_price_variations.py:160-162 | The label loop computes the item's annotation. |
| Annotation.ApplyLabelsStops | examples/python/subscribe_price_variations.py:160-162 | An exception at one label step is the item's exception. |
| Annotation.MapItemsSnoc | examples/python/subscribe_price_variations.py:159-162 | A succeeding element extends the loop's result by its rewritten value. |
| Annotation.MapItemsAt | examples/python/subscribe_price_variations.py:159-162 | A raising element after succeeding ones makes the whole loop raise its exception. |
| Annotation.AnnotateTrades | examples/python/subscribe_price_variations_and_trades.py:235-236 | The loop computes the specified trade annotation or exception. |
| Annotation.AnnotateTradesInPlace | examples/python/subscribe_price_variations_and_trades.py:235-236 | The loop over a list of trades rewrites each trade in place. |
| Routing.PriceRouteSpec | examples/python/subscribe_price_variations.py:153-169 | A frame goes to the responses file exactly when it is a dictionary with 'inference' whose payload annotates; the record is the annotated dictionary. It goes unchanged to the no-inference file exactly when `in` answers False. Anything else crashes the script. |
| Routing.PriceRunStops | examples/python/subscribe_price_variations.py:151-175 | After a crash, later frames change nothing. |
| Routing.PriceListen | examples/python/subscribe_price_variations.py:146-175 | The receive loop produces the specified log of files, token sends and crash. |
| Routing.PriceRouteFrame | examples/python/subscribe_price_variations.py:153-169 | One loop body routes the frame as specified. |
| Routing.PriceRunPartition | examples/python/subscribe_price_variations.py:151-169 | With no crash, every frame lands in exactly one file. Otherwise the run stops at the first crashing frame, and each earlier frame wrote one record. |
| Routing.PriceStepCounts | examples/python/subscribe_price_variations.py:151-175 | One frame writes one record or records the crash, and does nothing after a crash. |
| Routing.FirstCrashExtends | examples/python/subscribe_price_variations.py:151-155 | The first crashing frame stays first as frames are added. |
| Routing.PriceRunRecords | examples/python/subscribe_price_variations.py:157-169 | Responses all carry 'inference'. No-inference records are those for which `'inference' in` answered False. |
| Routing.PriceRunTokens | examples/python/subscribe_price_variations.py:173-175 | Token refreshes come in frame order, each more than 60 s on the script's clock after the previous send or the start. The last send time is tracked. |
| Routing.TradesRouteSpec | examples/python/subscribe_price_variations_and_trades.py:197-243 | Rules in priority order: 'forbidden' or 'deactivated' reconnects; then 'inference' goes annotated to responses; then 'trade' goes annotated to trades. Other dictionaries go to no-inference. Any exception or non-dictionary reconnects. |
| Routing.SentAfterShape | examples/python/subscribe_price_variations_and_trades.py:207-217 | After r reconnects, 4r+2 messages were sent. Each generation begins with the inference and then the trade subscription, and every message belongs to a generation already begun. |
| Routing.SentAfterLength | examples/python/subscribe_price_variations_and_trades.py:250-260 | Each reconnect sends four messages after the first two. |
| Routing.SentAfterStarts | examples/python/subscribe_price_variations_and_trades.py:250-260 | Generation g starts with both unchanged subscriptions. |
| Routing.SentAfterGenerations | examples/python/subscribe_price_variations_and_trades.py:250-260 | No message belongs to a generation not yet begun. |
| Routing.TradesListen | examples/python/subscribe_price_variations_and_trades.py:186-264 | The `try` loop produces the specified log of files, reconnect reasons and sends. |
| Routing.TradesRouteFrame | examples/python/subscribe_price_variations_and_trades.py:197-243 | One `try` body routes the frame as specified. |
| Routing.TradesRunPartition | examples/python/subscribe_price_variations_and_trades.py:186-264 | Every frame lands in exactly one of three files or a reconnect, each file holds only what the rules send there, and the sends are the initial subscriptions plus one resubscription per reconnect. |
| Session.RetryStarted | examples/python/get_timestamp_predictions.py:232-242 | `start_retry` flags the batch, counts one more retry and sets the delay to 1.0·factor^(count−1). |
| Session.RetryInvariantKept | examples/python/get_timestamp_predictions.py:527-531 | Every transition the code makes keeps the retry fields either idle or in a first retry with the initial delay. |
| Session.ThrottlingWhileRetrying | examples/python/get_timestamp_predictions.py:529 | A 'throttling' message during a retry changes no retry field. |
| Session.ThrottlingFromIdle | examples/python/get_timestamp_predictions.py:529-530 | From idle, 'throttling' always yields count 1 and delay 1.0. |
| Session.ThrottleRunStaysAtOne | examples/python/get_timestamp_predictions.py:527-531 | However many throttles arrive, the count stays 1 and the delay stays 1.0 (the throttle row of "## Findings"). |
| Session.AbandonNeedsSmallBudget | examples/python/get_timestamp_predictions.py:380-384 | The abandonment test can only pass when `--max-retries` is at most 1. |
| Session.OnThrottlingIntended | examples/python/get_timestamp_predictions.py:527-531 | Intended reaction: every throttle counts as one more retry. |
| Session.IntendedThrottleRunGrows | examples/python/get_timestamp_predictions.py:232-242 | Intended: after k throttles the count is k and the delay is 1.0·factor^(k−1). |
| Session.IntendedAbandonReached | examples/python/get_timestamp_predictions.py:380-384 | Intended: abandonment is reached after exactly MAX_RETRIES throttles and not before. |
| Session.FirstUnprocessed | examples/python/get_timestamp_predictions.py:274-287 | The least unprocessed index from the start on, or None when all are processed. |
| Session.PongHealth | examples/python/get_timestamp_predictions.py:328-334 | More than 5 missing pongs is inactive; 4 or 5 is a warning. |
| Session.StaleHealth | examples/python/get_timestamp_predictions.py:569-577 | Silence longer than 5 ping intervals is inactive. Any verdict other than healthy needs more than 3 intervals. |
| Session.NoPongsSixthPing | examples/python/get_timestamp_predictions.py:328-334 | With no pongs, the sixth ping is the first that flags the connection inactive. |
| Session.Classify | examples/python/get_timestamp_predictions.py:488-555 | An 'inference' list is results. Otherwise a 'message' is informational (throttling, deactivated and others). Otherwise the layout is unrecognised and identified by its key set. |
| Session.NoteLayout | examples/python/get_timestamp_predictions.py:544-548 | A layout is remembered exactly when it is new and fewer than three are known. |
| Session.NoteLayoutsBounded | examples/python/get_timestamp_predictions.py:544-548 | At most three layouts are remembered, only ones seen, and all are kept while fewer than three are known. |
| Session.CountedClasses | examples/python/get_timestamp_predictions.py:503-555 | A results message adds a string key to the Counter. An informational message adds its own value, a number, string or None, unless the value is unhashable. A newly remembered layout adds a string key. Nothing else adds one. |
| Session.ResultsAndNumericMessageRaise | examples/python/get_timestamp_predictions.py:503-603 | Results and a numeric 'message' put a string and a number among the Counter's keys, so the final `sorted(message_counts.items())` raises TypeError. |
| Session.ResultList.constructor | examples/python/get_timestamp_predictions.py:706 | The result list starts empty. |
| Session.SharedState.constructor | examples/python/get_timestamp_predictions.py:211-230 | The initial fields: not throttling, no retry, delay 1.0, connection active, nothing processed, an empty Counter. |
| Session.SharedState.StartRetry | examples/python/get_timestamp_predictions.py:232-242 | Updates the retry fields as `start_retry` specifies. |
| Session.SharedState.ResetRetry | examples/python/get_timestamp_predictions.py:244-251 | Returns the retry fields to idle. |
| Session.SharedState.MarkBatchProcessed | examples/python/get_timestamp_predictions.py:253-260 | Adds exactly the index. |
| Session.SharedState.GetNextUnprocessedBatchIndex | examples/python/get_timestamp_predictions.py:274-287 | The first unprocessed index from `start_index`, or None exactly when all from there are processed. |
| Session.Attempt.constructor | examples/python/get_timestamp_predictions.py:357-366 | The sender records the batch count and starts at the first unprocessed batch, or returns when there is none. With the connection active and no retry pending, it waits BATCH_DELAY before that batch. |
| Session.Attempt.SenderLoopHead | examples/python/get_timestamp_predictions.py:366-407 | Skips only processed batches. It stops, backs off for the retried batch, or delays before an unprocessed one. |
| Session.Attempt.SenderStep | examples/python/get_timestamp_predictions.py:366-431 | A send is logged only when it completes. A failed send deactivates the connection and ends the sender, and nothing else the sender does touches the flag. After a completed send the loop condition is checked again. Processed marks are untouched. |
| Session.Attempt.BackoffElapsed | examples/python/get_timestamp_predictions.py:377-384 | After the backoff, the sender abandons the batch when the count is at least MAX_RETRIES (possible only when the budget is at most 1). Otherwise it re-sends the batch. |
| Session.Attempt.SendReturned | examples/python/get_timestamp_predictions.py:387-431 | A completed send makes its batch current and leaves the connection flag alone. A retry stays on its batch; a normal send moves past it. |
| Session.Attempt.Absorb | examples/python/get_timestamp_predictions.py:488-555 | Results extend the list and complete the retried or the current batch. The informational messages adjust the retry and receive state. |
| Session.Attempt.ReceiveFailed | examples/python/get_timestamp_predictions.py:595-598 | A receive error deactivates the connection and ends the receiver. |
| Session.Attempt.WaitElapsed | examples/python/get_timestamp_predictions.py:581-586 | An empty wait stops the receiver exactly when TIMEOUT_SECONDS have passed since the last message. |
| Session.Attempt.ObjectArrived | examples/python/get_timestamp_predictions.py:480-579 | A message restamps the last-message time, adds its key classes to the Counter, never reactivates the connection, never unmarks batches, and grows the results by exactly a results payload. Before the heartbeat is due, any message but 'deactivated' keeps the receiver going. |
| Session.Attempt.Dispatch | examples/python/get_timestamp_predictions.py:488-579 | A countable message is acted on as classified, then the heartbeat check deactivates a connection silent for more than five ping intervals. |
| Session.Attempt.Heartbeat | examples/python/get_timestamp_predictions.py:565-579 | When the heartbeat is due and the silence exceeds 5 ping intervals, the connection is deactivated and the receiver ends. Before it is due, only the loop condition is re-checked. |
| Session.Attempt.ReceiverStep | examples/python/get_timestamp_predictions.py:470-598 | Any receiver resumption keeps the state valid, grows the processed set, the results and the Counter's keys, and never reactivates the connection. A failed receive, bad JSON or a frame that is not an object ends the receiver. An empty wait stops it exactly at TIMEOUT_SECONDS of silence. |
| Supervisor.ReconnectDelayDoubles | examples/python/get_timestamp_predictions.py:763-767 | The first reconnect sleep is RECONNECT_BACKOFF and each later one doubles the previous one. |
| Supervisor.EndOf | examples/python/get_timestamp_predictions.py:600-603 | The receiver's final sort raises exactly when it has returned with mixed key classes. Otherwise the attempt has ended exactly when both coroutines returned, with the connection flag and whether every batch is processed. |
| Supervisor.RunAttempt | examples/python/get_timestamp_predictions.py:737-744 | Running both coroutines never loses results, processed marks or Counter keys. The attempt ends with the receiver's sort raising, or when both coroutines have returned, reporting whether the connection is still active and all batches are processed. A Counter that already cannot be sorted rules out a normal end. |
| Supervisor.TryOnce | examples/python/get_timestamp_predictions.py:722-753 | One attempt reports NotConnected exactly when the connection is refused, and keeps the shared state ready. It reports ReceiverRaised only with an unsortable Counter, and an unsortable Counter stays so and rules out a normal end. |
| Supervisor.ReconnectionsStep | examples/python/get_timestamp_predictions.py:760-761 | One more attempt end adds one reconnect when the policy reconnects on it. |
| Supervisor.Run | examples/python/get_timestamp_predictions.py:702-769 | One shared state and result list start from the loaded results. There are at most MAX_RECONNECT_ATTEMPTS+1 attempts, and every attempt but the last led to a reconnect. As written, every attempt but the last was refused or ended by the receiver's sort, and an attempt whose coroutines both returned is the last. As intended, a deactivated attempt with batches left is followed by another while attempts and outcomes remain. Once the sort has raised, no later attempt ends normally. |
| Supervisor.Reconnect | examples/python/get_timestamp_predictions.py:719-769 | The loop keeps the results and the state ready, and stops at a non-reconnecting end or when attempts run out. As written it stops after an attempt whose coroutines both returned; as intended it goes on after a deactivated one with batches left. |
| Supervisor.FirstAttempt | examples/python/get_timestamp_predictions.py:703-741 | The first attempt over a fresh shared state has an empty Counter, nothing processed, an active connection, and the sender waiting before batch 0. |
| Supervisor.FailedSendEndsRun | examples/python/get_timestamp_predictions.py:415-421 | An attempt whose send raises ends with the connection inactive and the batch unprocessed. As written that end stops the run; as intended it reconnects (the reconnection row of "## Findings"). |
| Supervisor.PingGiveUpEndsRun | examples/python/get_timestamp_predictions.py:328-334 | An attempt whose ping task gives up during a send ends the same way: the run stops as written and reconnects as intended. |
| Supervisor.MixedCounterRaises | examples/python/get_timestamp_predictions.py:600-603 | A numeric 'message' and a results message make the receiver's final sort raise, and both policies reconnect. |
| Planner.Quad | examples/python/get_timestamp_predictions.py:652-657 | Four combinations per FIGI and time. |
| Planner.QuadAt | examples/python/get_timestamp_predictions.py:652-668 | Combination c of a FIGI and time is the c-th (side, ATS) pair. |
| Planner.ApiTimeParses | examples/python/get_timestamp_predictions.py:147-161 | A planned time's API text reads back as its UTC time cut to milliseconds. |
| Planner.RequestsOf | examples/python/get_timestamp_predictions.py:681-696 | One request per combination. |
| Planner.PerFigiLength | examples/python/get_timestamp_predictions.py:666-668 | One FIGI has four combinations per time. |
| Planner.PerFigiAt | examples/python/get_timestamp_predictions.py:666-668 | Position 4t+c of a FIGI's combinations is time t in combination c. |
| Planner.CombinationsSize | examples/python/get_timestamp_predictions.py:660-668 | There are |figis|·4·|times| combinations, written as offsets. |
| Planner.CombinationsAt | examples/python/get_timestamp_predictions.py:664-668 | The plan is FIGI-major. |
| Planner.CombinationsLength | examples/python/get_timestamp_predictions.py:660 | `all_combinations` has `total_inferences` entries. |
| Planner.CombinationsStep | examples/python/get_timestamp_predictions.py:665-668 | The outer loop appends one FIGI's combinations. |
| Planner.PerFigiStep | examples/python/get_timestamp_predictions.py:666-668 | The middle loop appends one time's four combinations. |
| Planner.QuadStep | examples/python/get_timestamp_predictions.py:667-668 | The inner loop appends one combination. |
| Planner.AllCombinations | examples/python/get_timestamp_predictions.py:664-668 | The nested loops build exactly the FIGI-major combination list. |
| Planner.RequestsSlice | examples/python/get_timestamp_predictions.py:677-682 | Turning a slice into requests is slicing the requests. |
| Planner.RequestsStep | examples/python/get_timestamp_predictions.py:682-696 | One loop turn appends one request. |
| Planner.BatchRequests | examples/python/get_timestamp_predictions.py:681-696 | The inner loop turns a slice of combinations into their requests. |
| Planner.MakeBatches | examples/python/get_timestamp_predictions.py:676-698 | The batches are the requests cut into consecutive groups of 1500. |
| Planner.PlanShape | examples/python/get_timestamp_predictions.py:673-698 | The batches concatenate to all the requests, |figis|·4·|times| of them, each for 1 000 000 at one time and not subscribing. |
| Planner.PlanOrder | examples/python/get_timestamp_predictions.py:664-698 | Request f·4m+4t+c is FIGI f at time t in combination c. |
| Planner.RequestAt | examples/python/get_timestamp_predictions.py:682-696 | The i-th request is that of the i-th combination. |
| Planner.PlanCombinationAt | examples/python/get_timestamp_predictions.py:664-668 | Combination f·4m+4t+c is FIGI f at time t in combination c. |
| Planner.PlanYear | examples/python/get_timestamp_predictions.py:627-698 | A year outside 1..9999 is an error. Otherwise the result is the batched plan of that year's weekdays at 9:00 and 16:00. |
| Calendar.Weekday | examples/python/get_timestamp_predictions.py:99 | `weekday()` is below 7. |
| Calendar.Epoch | examples/python/get_timestamp_predictions.py:99 | 1970-01-01 is day 0, a Thursday. |
| Calendar.RecentWindow | examples/python/new_get_timestamp_predictions.py:360-364 | The range starts August 1st and ends at December 31st or today, whichever comes first. |
| Calendar.YearLength | examples/python/get_timestamp_predictions.py:627-628 | The evaluated year has 366 days in a leap year, else 365. |
| Calendar.MarchToMarch | examples/python/get_timestamp_predictions.py:627-628 | There are 366 or 365 days between consecutive March 1sts. |
| Calendar.TradingDaysSpec | examples/python/get_timestamp_predictions.py:95-99 | The listed days are exactly the weekdays of the range, strictly increasing. |
| Calendar.TimestampsAppend | examples/python/get_timestamp_predictions.py:132-142 | One more day appends its 9:00 and 16:00. |
| Calendar.TimestampsAt | examples/python/get_timestamp_predictions.py:132-142 | Day k yields positions 2k (9:00) and 2k+1 (16:00). |
| Calendar.TimestampsLength | examples/python/get_timestamp_predictions.py:132-142 | Two times per day. |
| Calendar.TimestampsIncreasing | examples/python/get_timestamp_predictions.py:132-142 | Increasing days give strictly increasing times. |
| Calendar.TimestampsDayBound | examples/python/get_timestamp_predictions.py:132-142 | No time falls before its earliest day. |
| Calendar.GenerateTimestamps | examples/python/get_timestamp_predictions.py:119-145 | The loop builds exactly the 9:00 and 16:00 times of each trading day, in order. |
| Calendar.DecDigits | examples/python/get_timestamp_predictions.py:161 | `%Y` text is digits reading back as the year. |
| Calendar.DecLength | examples/python/get_timestamp_predictions.py:161 | The decimal text fits w characters exactly when the value is below 10^w. |
| Calendar.PadDigits | examples/python/get_timestamp_predictions.py:161 | A zero-padded field reads back as its value and has exactly its width. |
| Calendar.PadStep | examples/python/get_timestamp_predictions.py:161 | A padded field is its value/10 padded one shorter, then its last digit. |
| Calendar.MillisPrefix | examples/python/get_timestamp_predictions.py:161 | The first three of six `%f` digits are the milliseconds. |
| Calendar.DropMicros | examples/python/get_timestamp_predictions.py:161 | `[:-3] + 'Z'` drops the last three fraction digits and ends the text with 'Z'. |
| Calendar.FormatShape | examples/python/get_timestamp_predictions.py:161 | The API text is 'Y-MM-DDTHH:MM:SS.mmmZ' field by field. |
| Calendar.FormatLength | examples/python/get_timestamp_predictions.py:161 | A four-digit year gives 24 characters. |
| Calendar.FieldsFit | examples/python/get_timestamp_predictions.py:161 | Each padded field has its width and reads back as its value. |
| Calendar.TailSlices | examples/python/get_timestamp_predictions.py:161 | The separators and fields sit at fixed positions of the 20-character tail. |
| Calendar.ParseLayout | examples/python/get_timestamp_predictions.py:161 | A text in the layout parses to its fields. |
| Calendar.FormatRoundTrip | examples/python/get_timestamp_predictions.py:147-161 | Parsing the API text gives the date-time with its microseconds truncated to milliseconds. |
| Framing.Split | examples/python/new_get_timestamp_predictions.py:177 | There is at least one piece. |
| Framing.Indented | examples/python/new_get_timestamp_predictions.py:177 | One indented line per line. |
| Framing.JoinCons | examples/python/new_get_timestamp_predictions.py:177 | `join` of a first piece and the rest. |
| Framing.JoinAppend | examples/python/new_get_timestamp_predictions.py:177 | `join` of the pieces and a last one. |
| Framing.IndentedCons | examples/python/new_get_timestamp_predictions.py:177 | Indenting distributes over the first line. |
| Framing.SplitJoin | examples/python/new_get_timestamp_predictions.py:177 | Joining the pieces with a separator replaces every line break by it. |
| Framing.JoinHead | examples/python/new_get_timestamp_predictions.py:177 | A character before the first piece comes before the joined text. |
| Framing.ReplaceIdentity | examples/python/new_get_timestamp_predictions.py:177 | Rejoining with '\n' gives the text back. |
| Framing.IndentedJoin | examples/python/new_get_timestamp_predictions.py:177 | Indenting the pieces and joining with '\n' is one indent plus joining with '\n' and the indent. |
| Framing.SplitLast | examples/python/new_get_timestamp_predictions.py:177 | A text not ending in a line break has a non-empty last piece. |
| Framing.AddIndentSpec | examples/python/new_get_timestamp_predictions.py:176-177 | `add_indent` of a dumped item puts four spaces at the start and after every line break, and changes nothing else. |
| Framing.FramedAppend | examples/python/new_get_timestamp_predictions.py:179-188 | The file holds only '[' exactly when nothing was written. An item is preceded by '\n' first and ',\n' afterwards. |
| Framing.OutputFile.constructor | examples/python/new_get_timestamp_predictions.py:209-210 | The file is opened holding '['. |
| Framing.OutputFile.Append | examples/python/new_get_timestamp_predictions.py:179-188 | Appends the indented item text with the right separator. |
| Framing.OutputFile.Close | examples/python/new_get_timestamp_predictions.py:239-247 | The final file is '[]' for no items, else the items comma-separated between '[' and '\n]'. |
| Retriever.Window | examples/python/new_get_timestamp_predictions.py:375-378 | The window is a subsequence of the times. |
| Retriever.WindowMembers | examples/python/new_get_timestamp_predictions.py:375-378 | A time is kept exactly when it is within the bond's lifetime. |
| Retriever.IncreasingTail | examples/python/new_get_timestamp_predictions.py:375-378 | The tail of increasing times is increasing and later than the head. |
| Retriever.WindowOrdered | examples/python/new_get_timestamp_predictions.py:375-378 | The filter keeps time order. |
| Retriever.WindowDays | examples/python/new_get_timestamp_predictions.py:377 | An evaluation time is in the window exactly when its day is from settlement up to, but excluding, maturity. |
| Retriever.Formatted | examples/python/new_get_timestamp_predictions.py:376 | One API text per time. |
| Retriever.FigiRequests | examples/python/new_get_timestamp_predictions.py:381-402 | Eight requests per bond. |
| Retriever.InferenceRequests | examples/python/new_get_timestamp_predictions.py:366-406 | Succeeds exactly when every FIGI has bond information (otherwise KeyError), with eight requests per bond. |
| Retriever.InferenceRequestAt | examples/python/new_get_timestamp_predictions.py:381-402 | Request 8f+c is variant c of bond f, carrying that bond's lifetime times. |
| Retriever.RequestsCarryWindows | examples/python/new_get_timestamp_predictions.py:375-388 | Every request carries a list of at most the generated times. |
| Retriever.BatchSize | examples/python/new_get_timestamp_predictions.py:204-205 | Defined exactly for 1 to 32000 timestamps, and then positive. Zero is a ZeroDivisionError; more is a zero step. |
| Retriever.BatchSizeBudget | examples/python/new_get_timestamp_predictions.py:204 | The largest number of full-length requests within 32000 timestamps. |
| Retriever.ExpectedDefined | examples/python/new_get_timestamp_predictions.py:257-260 | The expected count exists exactly when every request has a timestamp list. |
| Retriever.ExpectedBound | examples/python/new_get_timestamp_predictions.py:257-260 | With at most `bound` times per request, at most |batch|·bound are expected. |
| Retriever.ExpectedInferences | examples/python/new_get_timestamp_predictions.py:257-260 | The loop computes the expected count, or the TypeError. |
| Retriever.PyIndex | examples/python/new_get_timestamp_predictions.py:221 | Python indexing with negative indices; outside the range is an IndexError. |
| Retriever.TaskIndices | examples/python/new_get_timestamp_predictions.py:234 | `range(start, n)`. |
| Retriever.TasksFromStart | examples/python/new_get_timestamp_predictions.py:234 | From a non-negative start, each batch from there is visited once, in order. |
| Retriever.NegativeStartRepeats | examples/python/new_get_timestamp_predictions.py:195-234 | A negative start batch visits some batches twice. |
| Retriever.EffectOfSpec | examples/python/new_get_timestamp_predictions.py:285-314 | Only 'inference' objects keep payloads, counted by length. Throttling errors in any case, bad JSON, an 'insufficient data' message with an unsized 'data', and a number, boolean or null frame raise. A list or string frame is passed over exactly when it holds none of 'inference', 'message' and 'error', and raises otherwise. |
| Retriever.ScanFrom | examples/python/new_get_timestamp_predictions.py:279-320 | The stopping frame, when there is one, is among the frames. |
| Retriever.ScanReached | examples/python/new_get_timestamp_predictions.py:279-320 | Stopping at the count: no frame raised, the count was reached there and not before. |
| Retriever.ScanBroke | examples/python/new_get_timestamp_predictions.py:279-325 | Stopping at a raise: earlier frames counted, the count was never reached. |
| Retriever.ScanExhausted | examples/python/new_get_timestamp_predictions.py:279-325 | Running out: nothing raised and the count stayed short. |
| Retriever.ScanAt | examples/python/new_get_timestamp_predictions.py:279-325 | The loop from frame i stops after i. |
| Retriever.ScanAtFrom | examples/python/new_get_timestamp_predictions.py:279-320 | The loop from frame i is the scan of the rest, shifted. |
| Retriever.KeptAtPayloads | examples/python/new_get_timestamp_predictions.py:289-291 | The kept payloads are those of the frames read. |
| Retriever.ReadSpec | examples/python/new_get_timestamp_predictions.py:279-325 | Reading from the start is the scan, keeping the payloads of the frames read. |
| Retriever.ReadResponses | examples/python/new_get_timestamp_predictions.py:279-325 | The receive loop stops where the scan says and keeps those payloads. |
| Retriever.RunAttempt | examples/python/new_get_timestamp_predictions.py:266-330 | One connection succeeds on reaching the count or a timeout, under the corrected flattening (see "## Left out"). It fails on a raise or a close, and keeps its payloads either way. |
| Retriever.Reports | examples/python/new_get_timestamp_predictions.py:265-349 | A hundred attempt reports. |
| Retriever.FirstSuccessSpec | examples/python/new_get_timestamp_predictions.py:265-344 | The first successful attempt, with all earlier ones failed, or none succeeded. |
| Retriever.BackoffValueClosedForm | examples/python/new_get_timestamp_predictions.py:349 | After k failures, backoff is 2.0·2.5^k. |
| Retriever.RetryLoop | examples/python/new_get_timestamp_predictions.py:265-356 | Tries up to 100 connections. The result comes from the first success; the hundredth failure gives up. The sleeps follow the schedule. |
| Retriever.Backoff | examples/python/new_get_timestamp_predictions.py:342-354 | The sleeps after one failure and the next backoff value. |
| Retriever.RetrieveBatch | examples/python/new_get_timestamp_predictions.py:250-356 | The specified batch result (a TypeError when the count is undefined), with its tries and sleeps; the kept payloads are flattened the corrected way (see "## Left out"). |
| Retriever.KeptUpToAt | examples/python/new_get_timestamp_predictions.py:252 | `inferences` is not reset between attempts: a payload kept by one attempt stays at its place in the list of every later attempt. |
| Retriever.ScalarAnswerRetried | examples/python/new_get_timestamp_predictions.py:318-332 | As written, once any attempt has kept a number payload, the flattening that ends that attempt and every later one raises, so each is retried. |
| Retriever.ScalarBatchContrast | examples/python/new_get_timestamp_predictions.py:250-356 | A one-timestamp batch answered `{"inference": 5}` on every connection: the corrected batch result is that one answer, while as written all hundred flattenings raise. |
| Retriever.BatchResultMeaning | examples/python/new_get_timestamp_predictions.py:265-344 | A batch succeeds exactly when one of its first hundred attempts does. |
| Retriever.BackoffSchedule | examples/python/new_get_timestamp_predictions.py:347 | The back-off sleep grows and reaches its 60 s cap exactly from the fifth failure. |
| Retriever.ReconnectSchedule | examples/python/new_get_timestamp_predictions.py:353 | The reconnection sleep grows and reaches its 600 s cap exactly from the eighth failure. |
| Retriever.SleepsBounded | examples/python/new_get_timestamp_predictions.py:342-354 | After n failures there are n to 2n sleeps, each between 2 s and 600 s. |
| Retriever.FlattenCount | examples/python/new_get_timestamp_predictions.py:293-297 | Intended flattening: as many items as were counted (the flattening row of "## Findings"). |
| Retriever.FlattenKeeps | examples/python/new_get_timestamp_predictions.py:318 | Every item of every payload is in the flattened list. |
| Retriever.ScalarPayloadPoisons | examples/python/new_get_timestamp_predictions.py:289-296 | A number payload counts as one inference, yet `chain` raises on it, on every later flattening too (the flattening row of "## Findings"). |
| Retriever.ObjectPayloadSpreads | examples/python/new_get_timestamp_predictions.py:289-296 | A dictionary payload counts as one inference, yet `chain` yields its keys (the flattening row of "## Findings"). |
| Retriever.DelayClosedForm | examples/python/new_get_timestamp_predictions.py:228 | The delay is min(0.1·2.5^failures, 60). |
| Retriever.DelayBounds | examples/python/new_get_timestamp_predictions.py:228-231 | The delay stays within [0.1, 60] and every pause within [0.5, 60]. |
| Retriever.Failures | examples/python/new_get_timestamp_predictions.py:225-228 | One failure flag per task. |
| Retriever.Pauses | examples/python/new_get_timestamp_predictions.py:229-231 | One pause per task. |
| Retriever.PausesBounded | examples/python/new_get_timestamp_predictions.py:231 | Every pause is between half a second and a minute. |
| Retriever.Texts | examples/python/new_get_timestamp_predictions.py:183 | One file text per result. |
| Retriever.TextsStep | examples/python/new_get_timestamp_predictions.py:222-224 | One result appends its indented dump. |
| Retriever.AppendAll | examples/python/new_get_timestamp_predictions.py:222-224 | Appends every result's text in order. |
| Retriever.ProcessBatch | examples/python/new_get_timestamp_predictions.py:216-231 | Appends the batch's results or nothing; a failure raises the delay; the pause is max(0.5, delay). |
| Retriever.ChunkMembers | examples/python/new_get_timestamp_predictions.py:205 | Every element of a batch comes from the requests. |
| Retriever.ChunkBudget | examples/python/new_get_timestamp_predictions.py:204-205 | Batches of requests with bounded lists stay within the budget. |
| Retriever.PlanBudget | examples/python/new_get_timestamp_predictions.py:197-205 | Every planned batch expects at most 32000 answers. |
| Retriever.PlanShape | examples/python/new_get_timestamp_predictions.py:197-205 | The batches are the requests cut into consecutive groups of the batch size. |
| Retriever.Evaluate | examples/python/new_get_timestamp_predictions.py:190-247 | Errors exactly when planning fails. Otherwise the file is '[' … ']' holding the collected results of `range(start_batch, len(batches))`, with the specified pauses. |
| Retriever.RunTasks | examples/python/new_get_timestamp_predictions.py:234-237 | The tasks append all collected results in order, with their pauses. |
| Retriever.CollectedStep | examples/python/new_get_timestamp_predictions.py:234-237 | One task extends the collected results by its own. |
| Retriever.TextsAppend | examples/python/new_get_timestamp_predictions.py:222-224 | The texts of two result lists concatenate. |
| Retriever.PausesStep | examples/python/new_get_timestamp_predictions.py:228-231 | One task adds one pause and one step of the delay. |
| Batching.FlattenAppend | examples/python/new_get_timestamp_predictions.py:318 | `chain` over one more list appends it. |
| Batching.FlattenConcat | examples/python/new_get_timestamp_predictions.py:318 | `chain` distributes over concatenation. |
| Batching.SumAppend | examples/python/new_get_timestamp_predictions.py:258-260 | The running sum adds the last term. |
| Batching.ChunksSpec | examples/python/new_get_timestamp_predictions.py:205 | The slices concatenate back to the list; all are full but the last, and none is empty. |
| Batching.ChunksCount | examples/python/get_timestamp_predictions.py:677 | There are ceil(|s|/n) slices. |
| Batching.ChunksStep | examples/python/get_timestamp_predictions.py:677-678 | The first slice, then the slices of the rest. |
| Batching.ChunksUnique | examples/python/cusips_to_figis.py:110-116 | Well-sized groups concatenating to s are exactly the slices of s. |
| Batching.FlattenElement | examples/python/new_get_timestamp_predictions.py:318 | Every element of every group is in the concatenation. |
| Batching.ChunksFrom | examples/python/get_timestamp_predictions.py:677-678 | Slicing from position i peels `s[i:i+n]`. |
| Batching.OffsetIsProduct | examples/python/get_timestamp_predictions.py:660 | Block offsets are products. |
| Batching.ConcatMapStep | examples/python/get_timestamp_predictions.py:665-668 | One more outer element appends its block. |
| Batching.ConcatMapLength | examples/python/get_timestamp_predictions.py:660-668 | Equal blocks of m give Offset(n, m) elements. |
| Batching.ConcatMapAt | examples/python/get_timestamp_predictions.py:664-668 | Position i·m+j is element j of block i. |
| Batching.ConcatMapAppend | examples/python/subscribe_price_variations.py:113-125 | The expansion distributes over concatenation. |
| Batching.ConcatMapFuse | examples/python/subscribe_price_variations.py:117 | Nested loops are one expansion by the composite. |
| Json.PyLen | examples/python/new_get_timestamp_predictions.py:303 | `len` is defined exactly for lists, strings and dictionaries. |
| Json.LowerChar | examples/python/new_get_timestamp_predictions.py:312 | ASCII upper case goes to lower; other characters are unchanged. |
| Json.ContainsAt | examples/python/new_get_timestamp_predictions.py:312 | `sub in s` holds exactly when `sub` occurs as a slice of `s` at some position. |
| Json.LowerContains | examples/python/new_get_timestamp_predictions.py:312 | `"throttled" in e.lower()` holds exactly when some slice of `e` lower-cases to "throttled", that is, when "throttled" appears in `e` in any mix of cases. |
| Arith.MinReal | examples/python/new_get_timestamp_predictions.py:228 | `min` is one of its arguments and at most both. |
| Arith.MaxReal | examples/python/new_get_timestamp_predictions.py:231 | `max` is one of its arguments and at least both. |
| Arith.PowGrows | examples/python/new_get_timestamp_predictions.py:349 | Powers of a factor of at least one are at least one and grow. |
| Arith.PowMono | examples/python/new_get_timestamp_predictions.py:349 | Powers are monotone in the exponent. |

## Left out

- Concurrency is sequentialised.
  - `asyncio.gather` of the bulk script's tasks runs in order. The semaphore of 6 and the
    write lock only affect interleaving.
  - The year-long script's coroutines are modelled as step methods resumed in an input order.
  - The trades script's `FIRST_COMPLETED` merge of two sockets is one merged frame sequence.
  - The token and heartbeat tasks of the trades script are abstracted to the messages they
    would send (not modelled).
- `ping_websocket` is modelled only by its verdict (`Session.PongHealth`); the ping and pong
  bookkeeping loop is not modelled.
- I/O is left out:
  - file writes and flushes are modelled as lists of records;
  - printing, `argv` parsing and reading the ISIN file are left out;
  - S3 uploads and `load_universe` / `figi_to_issue_date` downloads are inputs.
  - `save_results` (pandas CSV) is not modelled.
- The OpenFIGI HTTP post, including tenacity's retry policy and its 1800 s budget, is an oracle
  returning the replies or an error.
- Replies whose `data` is not a list (a string, say) are not modelled.
- Clocks (`time.time()`, `datetime.now()`) are function parameters indexed by step.
- The US/Eastern to UTC conversion (pytz) is a parameter. `Planner.ApiTimeParses` and
  `Calendar.FormatRoundTrip` hold for any conversion.
- Python floats are exact reals. `int(32_000 / n)` is integer division; this is exact for the
  operands that occur.
- Dictionary key order is not modelled. `Retriever.FlattenAsWritten` takes the key order as a
  parameter.
- Connection.ConnectAsCalled: the trades script's two `connect(SERVER)` calls go to
  'wss://molyneux.deepmm.com', while connection.py dials 'wss://api.deepmm.com'. The model
  takes `Connection.Connect` to succeed where `Routing.TradesListen` and `Routing.PriceListen`
  start, although the price script's `connect('wss://staging1.deepmm.com')`
  (subscribe_price_variations.py:141) raises TypeError as written (see "## Findings").
- Routing.TradesListen: bare token refreshes carry no token contents. The token source is
  abstract.
- Annotation.AnnotateInference: when annotation raises part way through a list, the source has
  already mutated earlier items in place. The model returns the error without the partly
  mutated list. Both scripts discard that message or crash, so the partial state cannot be seen.
- OpenFigi.MapIsinsToFigis: the ISIN variant checks for a missing 'figi' while it consumes the
  generator, so a KeyError can come before a later request fails. The model checks the
  requests first.
- Session.Attempt.ObjectArrived: of the `message_counts` Counter only the classes of its keys
  are kept (`Session.SharedState.counterKeys`), since they decide whether the final
  `sorted(message_counts.items())` raises. So is its exception on an unhashable 'message'
  (`Session.Classify` kind UnhashableMessage). The counts themselves only feed logging.
- Session.Attempt.SenderStep: the 0.5 s and BATCH_DELAY sleeps are suspension points only.
- Supervisor.RunAttempt: when the receiver's final sort raises, `gather` raises at once but
  cancels neither the sender nor the ping task. Both keep running beside later attempts, and a
  leftover sender's failing send would clear `connection_active` during the next attempt. The
  model drops both tasks when the attempt ends.
- Routing.PriceListen: the opening `ws.send` (subscribe_price_variations.py:143) and every token
  refresh send (lines 173-175) are taken to complete. A send that raised would end the script
  with that exception, which the crash outcomes do not include.
- Routing.TradesListen: the connects and sends outside any `try` are taken to succeed. These are the
  initial ones (subscribe_price_variations_and_trades.py:172-176) and the resubscription after an
  exception (lines 244-260); one that raised would end the script. The sends on the revocation
  path (lines 207-217) are inside the `try`, and the model also takes them to succeed rather than
  sending a failure there to the reconnecting `except`.
- Retriever.RunAttempt, Retriever.RetrieveBatch: these use the corrected flattening
  `Retriever.FlattenPayloads`, not the as-written `list(chain(*inferences))`
  (new_get_timestamp_predictions.py:318, 323). As written, that call runs inside the attempt's
  `try` over the payloads of every attempt so far. A number, boolean or null payload makes it
  raise, so the attempt is retried, and so is every later one (`Retriever.ScalarAnswerRetried`).
  The batch then ends in "Max retries exceeded". A string or dictionary payload contributes its
  characters or its keys where the model keeps it whole. `Retriever.ScalarBatchContrast` shows
  the difference on one batch.
- Retriever.ProcessBatch, Retriever.RunTasks, Retriever.Evaluate: these build on
  `Retriever.RetrieveBatch`, so they also write the correctly flattened results. They do not
  model the as-written retries caused by a number payload.
- Routing.TradesRunPartition: its count of sends (the initial subscriptions plus one
  resubscription per reconnect) rests on the same assumption that every send completes.
- The model assumes Python 3.10 or earlier. From 3.11 on, `asyncio.wait` rejects the bare
  coroutines that subscribe_price_variations_and_trades.py:189-192 passes it; the TypeError is
  raised inside the `try`, so every pass of that loop would reconnect.
- Calendar.Strftime: whether `%Y` pads years below 1000 to four digits depends on the Python
  version and platform; the model writes them unpadded. Years from 1000 on are four digits
  either way.
- Connection.CountersMonotone and the `Spec` lemmas with empty bodies are summaries that Dafny
  proves from the definitions; they carry no proof work of their own.
- `get_trading_days` test mode and the current-year filtering of the year-long script depend on
  the clock. Only the non-test, past-year plan (`Planner.PlanYear`) is modelled.

## Findings

| source | as written | input that shows it | evidently intended | confidence | as-written member | corrected member |
|---|---|---|---|---|---|---|
| examples/python/get_timestamp_predictions.py:744-753 | Only an exception reaches the reconnecting `except`: a refused connection, or the receiver's final sort of a Counter with mixed key types. A connection deactivated by the staleness check, the ping task or a failed send lets `gather` return normally, and the `break` after it ends the whole run while batches remain. | One batch whose `ws.send` raises, or whose send is pending when the ping task gives up | Reconnect when the connection was deactivated with unprocessed batches | not executed | Supervisor.FailedSendEndsRun | Supervisor.Reconnect |
| examples/python/get_timestamp_predictions.py:527-531 | A 'throttling' message during a retry is ignored, so the retry count stays 1 and the backoff never grows | Three 'throttling' messages for one batch with `--max-retries 3` | Each throttle counts as one more retry, so the backoff doubles and the batch is abandoned after MAX_RETRIES | not executed | Session.ThrottleRunStaysAtOne | Session.IntendedThrottleRunGrows |
| examples/python/new_get_timestamp_predictions.py:289-296 | A non-list 'inference' payload counts as one inference, but `chain(*inferences)` iterates it: a number raises, inside the attempt's `try`, so that attempt and every later one is retried; a dictionary yields its keys | A frame `{"inference": 5}` or `{"inference": {"a": 1, "b": 2}}` | The payload is one item of the flattened list | not executed | Retriever.ScalarPayloadPoisons | Retriever.FlattenCount |
| examples/python/connection.py:8 | `connect()` takes no parameters, yet the subscription scripts call `connect(url)`, which raises TypeError | `connect('wss://staging1.deepmm.com')`, as in subscribe_price_variations.py line 141 | `connect(url)` dials the given address with the same retry schedule | not executed | Connection.ConnectAsCalled | Connection.Connect |
