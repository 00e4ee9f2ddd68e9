/**
 * The connection-attempt bookkeeping of the year-long bulk evaluation script: the shared
 * session state, the batch sender and the message receiver.
 *
 * The two coroutines share one `SharedState` and run cooperatively: between two `await`s a
 * coroutine's code runs without interruption. Each coroutine is therefore modelled by a
 * program counter naming the `await` it is suspended at, and by one step method that resumes
 * it, runs its code up to the next `await` and suspends it again. Any interleaving of those
 * steps is a possible run.
 */
module Session {

  import opened Wrappers
  import opened Json
  import opened Arith

  // ---------------------------------------------------------------- settings

  /** Backoff before the first retry of a throttled batch, in seconds. */
  const INITIAL_BACKOFF: real := 1.0

  /** How many distinct unrecognised message layouts the receiver remembers. */
  const MAX_WARNINGS: nat := 3

  /** Seconds between two staleness checks of the receiver. */
  const HEARTBEAT_INTERVAL: real := 5.0

  /**
   * The settings `main()` copies from the command line into the module's globals:
   * `--max-retries`, `--backoff-factor`, `--ping-interval` and `--timeout`.
   */
  datatype Config = Config(maxRetries: nat, backoffFactor: real, pingInterval: nat, timeoutSeconds: nat)

  /** The command-line defaults. */
  const DEFAULT_CONFIG := Config(3, 2.0, 15, 120)

  // ---------------------------------------------------------------- retry fields

  /** The four retry fields of the shared state. */
  datatype RetryFields = RetryFields(throttling: bool, retryBatchIndex: Option<nat>, retryCount: nat, backoffDelay: real)

  /** The retry fields as `__init__` and `reset_retry` leave them. */
  const NO_RETRY := RetryFields(false, None, 0, INITIAL_BACKOFF)

  /** `start_retry(batch)`: flag the batch, count one more retry, grow the delay geometrically. */
  function RetryStarted(r: RetryFields, batch: nat, factor: real): (r': RetryFields)
    ensures r'.throttling && r'.retryBatchIndex == Some(batch) && r'.retryCount == r.retryCount + 1
    ensures r'.backoffDelay == INITIAL_BACKOFF * Pow(factor, r.retryCount)
  {
    var count := r.retryCount + 1;
    RetryFields(true, Some(batch), count, INITIAL_BACKOFF * Pow(factor, count - 1))
  }

  /**
   * The receiver's reaction to a 'throttling' message: start a retry of the current batch,
   * unless a retry is already under way, in which case nothing changes.
   */
  function OnThrottling(r: RetryFields, currentBatch: nat, factor: real): RetryFields {
    if !r.throttling then RetryStarted(r, currentBatch, factor) else r
  }

  /**
   * The retry fields are in one of two shapes: idle, or retrying one batch for the first
   * time with the initial delay.
   */
  predicate RetryInvariant(r: RetryFields, factor: real) {
    || (r.throttling && r.retryCount == 1 && r.retryBatchIndex.Some? && r.backoffDelay == INITIAL_BACKOFF * Pow(factor, 0))
    || (!r.throttling && r.retryCount == 0 && r.retryBatchIndex.None? && r.backoffDelay == INITIAL_BACKOFF)
  }

  /** The two shapes are kept by every transition the code makes. */
  lemma RetryInvariantKept(r: RetryFields, currentBatch: nat, factor: real)
    requires RetryInvariant(r, factor)
    ensures RetryInvariant(NO_RETRY, factor)
    ensures RetryInvariant(OnThrottling(r, currentBatch, factor), factor)
  {
  }

  /** A 'throttling' message during a retry changes no retry field. */
  lemma ThrottlingWhileRetrying(r: RetryFields, currentBatch: nat, factor: real)
    requires r.throttling
    ensures OnThrottling(r, currentBatch, factor) == r
  {
  }

  /** `start_retry` is only reached from the idle shape, so it always yields the first-retry shape. */
  lemma ThrottlingFromIdle(r: RetryFields, currentBatch: nat, factor: real)
    requires RetryInvariant(r, factor) && !r.throttling
    ensures OnThrottling(r, currentBatch, factor) == RetryFields(true, Some(currentBatch), 1, INITIAL_BACKOFF)
  {
  }

  /** The retry fields after a run of 'throttling' messages, all while `current` is the current batch. */
  function ThrottleRun(r: RetryFields, current: nat, factor: real, k: nat): RetryFields
    decreases k
  {
    if k == 0 then r else OnThrottling(ThrottleRun(r, current, factor, k - 1), current, factor)
  }

  /**
   * However many 'throttling' messages arrive, the retry count never passes one and the delay
   * never grows past the initial one.
   */
  lemma {:induction false} ThrottleRunStaysAtOne(current: nat, factor: real, k: nat)
    requires k >= 1
    ensures ThrottleRun(NO_RETRY, current, factor, k) == RetryFields(true, Some(current), 1, INITIAL_BACKOFF)
    decreases k
  {
    if k > 1 {
      ThrottleRunStaysAtOne(current, factor, k - 1);
    }
  }

  /**
   * The sender abandons a retry when `retry_count >= MAX_RETRIES`. Under the invariant the
   * count is 0 or 1, so abandonment needs `MAX_RETRIES <= 1`.
   */
  lemma AbandonNeedsSmallBudget(r: RetryFields, factor: real, maxRetries: nat)
    requires RetryInvariant(r, factor)
    requires r.retryCount >= maxRetries
    ensures maxRetries <= 1
    ensures r.throttling ==> maxRetries <= 1
  {
  }

  /**
   * The evidently intended reaction to a 'throttling' message: every one counts as one more
   * retry of the batch being retried (or of the current batch when no retry is under way).
   */
  function OnThrottlingIntended(r: RetryFields, currentBatch: nat, factor: real): (r': RetryFields)
    ensures r'.retryCount == r.retryCount + 1
  {
    var batch := if r.throttling && r.retryBatchIndex.Some? then r.retryBatchIndex.value else currentBatch;
    RetryStarted(r, batch, factor)
  }

  function IntendedThrottleRun(r: RetryFields, current: nat, factor: real, k: nat): RetryFields
    decreases k
  {
    if k == 0 then r else OnThrottlingIntended(IntendedThrottleRun(r, current, factor, k - 1), current, factor)
  }

  /**
   * With the intended reaction, after k throttles the count is k and the delay is
   * INITIAL_BACKOFF * factor^(k-1); the abandonment test `retry_count >= MAX_RETRIES`
   * therefore succeeds after exactly MAX_RETRIES throttles.
   */
  lemma {:induction false} IntendedThrottleRunGrows(current: nat, factor: real, k: nat)
    requires k >= 1
    ensures IntendedThrottleRun(NO_RETRY, current, factor, k) ==
      RetryFields(true, Some(current), k, INITIAL_BACKOFF * Pow(factor, k - 1))
    decreases k
  {
    if k > 1 {
      IntendedThrottleRunGrows(current, factor, k - 1);
    }
  }

  lemma IntendedAbandonReached(current: nat, factor: real, maxRetries: nat)
    requires maxRetries >= 1
    ensures IntendedThrottleRun(NO_RETRY, current, factor, maxRetries).retryCount >= maxRetries
    ensures forall k :: 1 <= k < maxRetries ==> IntendedThrottleRun(NO_RETRY, current, factor, k).retryCount < maxRetries
  {
    IntendedThrottleRunGrows(current, factor, maxRetries);
    forall k | 1 <= k < maxRetries ensures IntendedThrottleRun(NO_RETRY, current, factor, k).retryCount < maxRetries {
      IntendedThrottleRunGrows(current, factor, k);
    }
  }

  // ---------------------------------------------------------------- next unprocessed batch

  /** The least index `i` with `from <= i < total` that is not processed, if any. */
  function FirstUnprocessed(processed: set<nat>, from: nat, total: nat): (r: Option<nat>)
    ensures r.Some? ==> from <= r.value < total && r.value !in processed
    ensures r.Some? ==> forall j :: from <= j < r.value ==> j in processed
    ensures r.None? ==> forall j :: from <= j < total ==> j in processed
    decreases total - from
  {
    if from >= total then None
    else if from !in processed then Some(from)
    else FirstUnprocessed(processed, from + 1, total)
  }

  // ---------------------------------------------------------------- liveness thresholds

  datatype Health = Healthy | Warning | Inactive

  /** The ping task's verdict on `ping_count` pings and `pong_count` pongs. */
  function PongHealth(pings: nat, pongs: nat): (h: Health)
    ensures h == Inactive <==> pings > pongs + 5
    ensures h == Warning <==> pongs + 3 < pings <= pongs + 5
  {
    if pings > pongs + 3 then (if pings > pongs + 5 then Inactive else Warning) else Healthy
  }

  /** The receiver's verdict on the seconds since the last message. */
  function StaleHealth(sinceLastMessage: real, pingInterval: nat): (h: Health)
    ensures h == Inactive <==> sinceLastMessage > (pingInterval * 5) as real
    ensures h != Healthy ==> sinceLastMessage > (pingInterval * 3) as real
  {
    if sinceLastMessage > (pingInterval * 3) as real then
      (if sinceLastMessage > (pingInterval * 5) as real then Inactive else Warning)
    else Healthy
  }

  /** Without any pong, the sixth ping is the first that flags the connection inactive. */
  lemma NoPongsSixthPing(pings: nat)
    ensures PongHealth(pings, 0) == Inactive <==> pings >= 6
    ensures PongHealth(pings, 0) == Warning <==> pings == 4 || pings == 5
  {
  }

  // ---------------------------------------------------------------- message classification

  /** What the receiver makes of one JSON object. */
  datatype Kind =
    | InferenceResults(items: seq<Json>)
    | Deactivated
    | Throttling
    | InsufficientData
    | OtherMessage
    | UnhashableMessage
    | UnknownLayout(keys: set<string>)

  /**
   * An `inference` list is results; otherwise a `message` field is an informational message
   * (its value is counted in a Counter first, which fails for a list or an object); anything
   * else is an unrecognised layout, identified by its key set.
   */
  function Classify(fields: map<string, Json>): (k: Kind)
    ensures k.InferenceResults? <==> "inference" in fields && fields["inference"].Arr?
    ensures k.InferenceResults? ==> k.items == fields["inference"].items
    ensures k.UnknownLayout? <==> !("inference" in fields && fields["inference"].Arr?) && "message" !in fields
    ensures k.UnknownLayout? ==> k.keys == fields.Keys
    ensures k == Throttling <==>
      !("inference" in fields && fields["inference"].Arr?) && "message" in fields && fields["message"] == Str("throttling")
    ensures k == Deactivated <==>
      !("inference" in fields && fields["inference"].Arr?) && "message" in fields && fields["message"] == Str("deactivated")
  {
    if "inference" in fields && fields["inference"].Arr? then InferenceResults(fields["inference"].items)
    else if "message" in fields then
      var m := fields["message"];
      if !Hashable(m) then UnhashableMessage
      else if m == Str("deactivated") then Deactivated
      else if m == Str("throttling") then Throttling
      else if m == Str("insufficient data") then InsufficientData
      else OtherMessage
    else UnknownLayout(fields.Keys)
  }

  /** Remembering an unrecognised layout: only new ones, and only while fewer than three are known. */
  function NoteLayout(known: set<set<string>>, keys: set<string>): (r: set<set<string>>)
    ensures known <= r <= known + {keys}
    ensures r == known + {keys} <==> keys in known || |known| < MAX_WARNINGS
    ensures |known| <= MAX_WARNINGS ==> |r| <= MAX_WARNINGS
  {
    if keys !in known && |known| < MAX_WARNINGS then known + {keys} else known
  }

  function NoteLayouts(known: set<set<string>>, layouts: seq<set<string>>): set<set<string>>
    decreases |layouts|
  {
    if layouts == [] then known else NoteLayouts(NoteLayout(known, layouts[0]), layouts[1..])
  }

  /**
   * Over any sequence of unrecognised layouts the receiver remembers at most three, only ones it
   * saw, and it skips one only when three are already remembered.
   */
  lemma {:induction false} NoteLayoutsBounded(known: set<set<string>>, layouts: seq<set<string>>)
    requires |known| <= MAX_WARNINGS
    ensures |NoteLayouts(known, layouts)| <= MAX_WARNINGS
    ensures known <= NoteLayouts(known, layouts)
    ensures forall l :: l in NoteLayouts(known, layouts) ==> l in known || l in layouts
    ensures |NoteLayouts(known, layouts)| < MAX_WARNINGS ==> forall k :: 0 <= k < |layouts| ==> layouts[k] in NoteLayouts(known, layouts)
    decreases |layouts|
  {
    if layouts != [] {
      var next := NoteLayout(known, layouts[0]);
      NoteLayoutsBounded(next, layouts[1..]);
      var r := NoteLayouts(known, layouts);
      assert r == NoteLayouts(next, layouts[1..]);
      forall k | 0 <= k < |layouts| && |r| < MAX_WARNINGS ensures layouts[k] in r {
        if k == 0 {
          assert |next| <= |r| by { SubsetCard(next, r); }
          assert layouts[0] in next;
        } else {
          assert layouts[k] == layouts[1..][k - 1];
        }
      }
    }
  }

  lemma SubsetCard<T>(a: set<T>, b: set<T>)
    requires a <= b
    ensures |a| <= |b|
  {
    assert b == a + (b - a);
  }

  // ---------------------------------------------------------------- the message counter

  /**
   * The classes of keys Python's `sorted` can order among themselves: numbers (booleans
   * included, since `bool` is a subclass of `int`), strings, and `None`, of which a Counter
   * holds at most one key.
   */
  datatype KeyClass = NumberKey | StringKey | NoneKey

  function ClassOf(v: Json): KeyClass
    requires Hashable(v)
  {
    match v
    case Num(_) => NumberKey
    case Bool(_) => NumberKey
    case Str(_) => StringKey
    case Null => NoneKey
  }

  /**
   * The classes of the keys the receiver adds to `message_counts` for one object, given the
   * layouts already remembered: 'inference' for results, the `message` value itself for an
   * informational message (none when that value cannot be hashed, which raises first), and
   * 'status/ack' or 'unknown' for an unrecognised layout the receiver newly remembers.
   */
  function CountedClasses(fields: map<string, Json>, known: set<set<string>>): (ks: set<KeyClass>)
    ensures |ks| <= 1
    ensures StringKey in ks <==>
      || ("inference" in fields && fields["inference"].Arr?)
      || ("message" in fields && fields["message"].Str?)
      || ("message" !in fields && fields.Keys !in known && |known| < MAX_WARNINGS)
    ensures NumberKey in ks <==>
      !("inference" in fields && fields["inference"].Arr?) && "message" in fields
      && (fields["message"].Num? || fields["message"].Bool?)
    ensures NoneKey in ks <==>
      !("inference" in fields && fields["inference"].Arr?) && "message" in fields && fields["message"].Null?
  {
    match Classify(fields)
    case InferenceResults(_) => {StringKey}
    case UnhashableMessage => {}
    case UnknownLayout(keys) => if NoteLayout(known, keys) != known then {StringKey} else {}
    case _ => {ClassOf(fields["message"])}
  }

  /**
   * Whether `sorted(message_counts.items())` raises TypeError. The items are (key, count)
   * pairs with distinct keys, so the sort compares keys with `<`, which raises across classes.
   * With keys of one class it succeeds; with two or more it raises, since a sort that finished
   * would have compared some pair adjacent in its output, and some such pair mixes classes.
   */
  predicate SortRaises(ks: set<KeyClass>) {
    |ks| >= 2
  }

  /**
   * Results and an informational message whose value is a number put a string and a number
   * among the Counter's keys, however the layouts stand, and the final sort raises.
   */
  lemma ResultsAndNumericMessageRaise(results: map<string, Json>, message: map<string, Json>,
                                      known1: set<set<string>>, known2: set<set<string>>)
    requires "inference" in results && results["inference"].Arr?
    requires "inference" !in message && "message" in message && message["message"].Num?
    ensures SortRaises(CountedClasses(results, known1) + CountedClasses(message, known2))
  {
    assert StringKey in CountedClasses(results, known1);
    assert NumberKey in CountedClasses(message, known2);
    assert {StringKey, NumberKey} <= CountedClasses(results, known1) + CountedClasses(message, known2);
    SubsetCard({StringKey, NumberKey}, CountedClasses(results, known1) + CountedClasses(message, known2));
  }

  // ---------------------------------------------------------------- the shared state

  /** `all_results`: the list every response's results are appended to. */
  class ResultList {
    var items: seq<Json>

    constructor ()
      ensures items == []
    {
      items := [];
    }
  }

  /** `SharedState`: the fields the sender and the receiver coordinate through. */
  class SharedState {
    var throttling: bool
    var lastMessageTime: real
    var currentBatchIndex: nat
    var retryBatchIndex: Option<nat>
    var retryCount: nat
    var backoffDelay: real
    var connectionActive: bool
    var processed: set<nat>
    var totalBatches: nat
    /** The classes of the keys in `message_counts`; the counts themselves only feed logging. */
    var counterKeys: set<KeyClass>
    /** The module-level BACKOFF_FACTOR the methods read. */
    const backoffFactor: real

    /** `__init__`; `now` is the clock reading it stores as the last message time. */
    constructor (backoffFactor: real, now: real)
      ensures Retry() == NO_RETRY && this.backoffFactor == backoffFactor
      ensures lastMessageTime == now && currentBatchIndex == 0 && connectionActive
      ensures processed == {} && totalBatches == 0 && counterKeys == {}
    {
      this.backoffFactor := backoffFactor;
      throttling := false;
      lastMessageTime := now;
      currentBatchIndex := 0;
      retryBatchIndex := None;
      retryCount := 0;
      backoffDelay := INITIAL_BACKOFF;
      connectionActive := true;
      processed := {};
      totalBatches := 0;
      counterKeys := {};
    }

    function Retry(): RetryFields
      reads this
    {
      RetryFields(throttling, retryBatchIndex, retryCount, backoffDelay)
    }

    method StartRetry(batchIndex: nat)
      modifies this`throttling, this`retryBatchIndex, this`retryCount, this`backoffDelay
      ensures Retry() == RetryStarted(old(Retry()), batchIndex, backoffFactor)
    {
      throttling := true;
      retryBatchIndex := Some(batchIndex);
      retryCount := retryCount + 1;
      backoffDelay := INITIAL_BACKOFF * Pow(backoffFactor, retryCount - 1);
    }

    method ResetRetry()
      modifies this`throttling, this`retryBatchIndex, this`retryCount, this`backoffDelay
      ensures Retry() == NO_RETRY
    {
      throttling := false;
      retryBatchIndex := None;
      retryCount := 0;
      backoffDelay := INITIAL_BACKOFF;
    }

    method MarkBatchProcessed(batchIndex: nat)
      modifies this`processed
      ensures processed == old(processed) + {batchIndex}
    {
      processed := processed + {batchIndex};
    }

    predicate IsBatchProcessed(batchIndex: nat)
      reads this
    {
      batchIndex in processed
    }

    /** `get_next_unprocessed_batch_index`: the first index from `startIndex` on that is not processed. */
    method GetNextUnprocessedBatchIndex(startIndex: nat) returns (r: Option<nat>)
      ensures r == FirstUnprocessed(processed, startIndex, totalBatches)
      ensures r.Some? ==> startIndex <= r.value < totalBatches && r.value !in processed
      ensures r.None? <==> forall j :: startIndex <= j < totalBatches ==> j in processed
    {
      var i := startIndex;
      while i < totalBatches
        invariant startIndex <= i || totalBatches <= startIndex
        invariant forall j :: startIndex <= j < i ==> j in processed
        invariant FirstUnprocessed(processed, startIndex, totalBatches) == FirstUnprocessed(processed, i, totalBatches)
        decreases totalBatches - i
      {
        if !IsBatchProcessed(i) {
          return Some(i);
        }
        i := i + 1;
      }
      return None;
    }
  }

  // ---------------------------------------------------------------- one connection attempt

  /** Indices the session can refer to: the batch indices, or just 0 when there are none. */
  function IndexBound(batchCount: nat): nat {
    if batchCount == 0 then 1 else batchCount
  }

  /**
   * What the shared state satisfies between attempts: a retry shape the code can produce, and
   * every index it holds within `IndexBound(batchCount)`.
   */
  ghost predicate ReadyFor(state: SharedState, batchCount: nat, factor: real)
    reads state
  {
    && state.backoffFactor == factor
    && RetryInvariant(state.Retry(), factor)
    && state.currentBatchIndex < IndexBound(batchCount)
    && (state.retryBatchIndex.Some? ==> state.retryBatchIndex.value < IndexBound(batchCount))
    && (forall p :: p in state.processed ==> p < IndexBound(batchCount))
  }

  /** Where the sender coroutine is suspended. */
  datatype SenderPc =
    | RetryBackoff(retryIndex: nat)   // asleep for backoff_delay before re-sending a throttled batch
    | RetrySending(retryIndex: nat)   // awaiting ws.send of that batch
    | RetrySettling                   // asleep half a second after the retry was sent
    | BatchDelay                      // asleep BATCH_DELAY before sending batches[i]
    | BatchSending                    // awaiting ws.send of batches[i]
    | SenderDone                      // returned

  /** What the receiver's `asyncio.wait(..., timeout=1.0)` came back with. */
  datatype RecvEvent =
    | Arrived(frame: Inbound, receivedAt: real, checkedAt: real)  // a frame, and the clock at receipt and at the heartbeat check
    | WaitElapsed(now: real)                                      // no frame within the second
    | RecvFailed                                                  // ws.recv() raised (connection closed)

  /**
   * The sender (`send_batches`) and the receiver (`receive_messages`) of one connection attempt,
   * over the shared state and result list that outlive the attempt.
   */
  class Attempt {
    const state: SharedState
    const results: ResultList
    const batchCount: nat
    const config: Config

    // send_batches locals
    var senderI: nat
    var senderPc: SenderPc
    /** The batch indices whose `ws.send` completed, in order. */
    var sent: seq<nat>

    // receive_messages locals
    var receiving: bool
    var expectingMessages: bool
    var unexpectedFormats: set<set<string>>
    var lastHeartbeatTime: real

    /** What any interleaving of the two coroutines keeps true of the shared state. */
    ghost predicate StateOk()
      reads this, state
    {
      state.totalBatches == batchCount && ReadyFor(state, batchCount, config.backoffFactor)
    }

    ghost predicate SenderOk()
      reads this
    {
      && senderI <= batchCount
      && match senderPc
         case RetryBackoff(ri) => ri < batchCount
         case RetrySending(ri) => ri < batchCount
         case BatchDelay => senderI < batchCount
         case BatchSending => senderI < batchCount
         case _ => true
    }

    ghost predicate Valid()
      reads this, state
    {
      StateOk() && SenderOk() && ReceiverOk()
    }

    ghost predicate ReceiverOk()
      reads this
    {
      |unexpectedFormats| <= MAX_WARNINGS && (receiving ==> expectingMessages)
    }

    /**
     * Starting the attempt's sender and receiver, in the order `create_task` runs them: the
     * sender records the batch count and starts from the first unprocessed batch (returning at
     * once if there is none); then the receiver checks its loop condition.
     */
    constructor (state: SharedState, results: ResultList, batchCount: nat, config: Config, now: real)
      requires ReadyFor(state, batchCount, config.backoffFactor)
      modifies state`totalBatches
      ensures Valid()
      ensures this.state == state && this.results == results && this.batchCount == batchCount && this.config == config
      ensures state.totalBatches == batchCount && sent == []
      ensures FirstUnprocessed(state.processed, 0, batchCount).None? ==> senderPc == SenderDone
      ensures FirstUnprocessed(state.processed, 0, batchCount).Some? ==>
        FirstUnprocessed(state.processed, 0, batchCount).value <= senderI
      ensures senderPc == BatchDelay ==> senderI == FirstUnprocessed(state.processed, 0, batchCount).value
      ensures FirstUnprocessed(state.processed, 0, batchCount).Some? && state.connectionActive
              && !(state.throttling && state.retryBatchIndex.Some?) ==>
        senderPc == BatchDelay
      ensures lastHeartbeatTime == now
      ensures receiving == state.connectionActive && expectingMessages && unexpectedFormats == {}
    {
      this.state := state;
      this.results := results;
      this.batchCount := batchCount;
      this.config := config;
      sent := [];
      receiving := state.connectionActive;
      expectingMessages := true;
      unexpectedFormats := {};
      lastHeartbeatTime := now;
      new;
      state.totalBatches := batchCount;
      var first := state.GetNextUnprocessedBatchIndex(0);
      if first.None? {
        senderI := 0;
        senderPc := SenderDone;
      } else {
        senderI := first.value;
        senderPc := SenderDone;
        SenderLoopHead();
      }
    }

    /**
     * The top of the sender's `while` loop, run without suspension: skip processed batches until
     * the loop ends, a retry is pending, or an unprocessed batch is found.
     */
    method SenderLoopHead()
      requires StateOk() && ReceiverOk() && senderI <= batchCount
      modifies this`senderI, this`senderPc
      ensures Valid()
      ensures old(senderI) <= senderI <= batchCount
      ensures forall j :: old(senderI) <= j < senderI ==> j in state.processed
      ensures senderPc == SenderDone <==> !(senderI < batchCount && state.connectionActive)
      ensures senderPc.RetryBackoff? <==>
        senderI < batchCount && state.connectionActive && state.throttling && state.retryBatchIndex.Some?
      ensures senderPc.RetryBackoff? ==> Some(senderPc.retryIndex) == state.retryBatchIndex && senderI == old(senderI)
      ensures senderPc == BatchDelay ==> senderI !in state.processed
      ensures senderPc == SenderDone || senderPc == BatchDelay || senderPc.RetryBackoff?
    {
      while senderI < batchCount && state.connectionActive && !(state.throttling && state.retryBatchIndex.Some?)
            && state.IsBatchProcessed(senderI)
        invariant old(senderI) <= senderI <= batchCount
        invariant forall j :: old(senderI) <= j < senderI ==> j in state.processed
        invariant state.throttling && state.retryBatchIndex.Some? ==> senderI == old(senderI)
        decreases batchCount - senderI
      {
        senderI := senderI + 1;
      }
      if !(senderI < batchCount && state.connectionActive) {
        senderPc := SenderDone;
      } else if state.throttling && state.retryBatchIndex.Some? {
        senderPc := RetryBackoff(state.retryBatchIndex.value);
      } else {
        senderPc := BatchDelay;
      }
    }

    /**
     * Resume the sender at its `await`: `sendOk` says whether a pending `ws.send` completed or
     * raised (it is ignored after a sleep).
     */
    method SenderStep(sendOk: bool)
      requires Valid() && senderPc != SenderDone
      modifies this`senderI, this`senderPc, this`sent, state`connectionActive, state`currentBatchIndex,
        state`throttling, state`retryBatchIndex, state`retryCount, state`backoffDelay
      ensures Valid()
      ensures state.lastMessageTime == old(state.lastMessageTime) && state.totalBatches == old(state.totalBatches)
      ensures state.processed == old(state.processed)
      // a completed send is logged; nothing is sent without completing
      ensures sent == old(sent) || (sendOk && (old(senderPc).RetrySending? || old(senderPc) == BatchSending) && |sent| == |old(sent)| + 1 && sent[..|old(sent)|] == old(sent))
      // a failed send deactivates the connection and ends the sender; nothing else touches the flag
      ensures state.connectionActive ==
        (old(state.connectionActive) && !((old(senderPc).RetrySending? || old(senderPc) == BatchSending) && !sendOk))
      ensures (old(senderPc).RetrySending? || old(senderPc) == BatchSending) && !sendOk ==>
        !state.connectionActive && senderPc == SenderDone && state.Retry() == old(state.Retry())
      // the retry: after the backoff, either abandon or send that batch
      ensures old(senderPc).RetryBackoff? && old(state.retryCount) >= config.maxRetries ==>
        state.Retry() == NO_RETRY && senderI >= old(senderPc).retryIndex + 1
        && (forall j :: old(senderPc).retryIndex + 1 <= j < senderI ==> j in state.processed)
        && config.maxRetries <= 1
      ensures old(senderPc).RetryBackoff? && old(state.retryCount) < config.maxRetries ==>
        senderPc == RetrySending(old(senderPc).retryIndex) && state.Retry() == old(state.Retry())
      ensures old(senderPc).RetrySending? && sendOk ==>
        sent == old(sent) + [old(senderPc).retryIndex] && state.currentBatchIndex == old(senderPc).retryIndex
        && senderPc == RetrySettling && senderI == old(senderI)
      // the normal path: after the delay, send batches[i]; once sent it is current and i moves on
      ensures old(senderPc) == BatchDelay ==> senderPc == BatchSending && senderI == old(senderI) && sent == old(sent)
      ensures old(senderPc) == BatchSending && sendOk ==>
        sent == old(sent) + [old(senderI)] && state.currentBatchIndex == old(senderI) && senderI >= old(senderI) + 1
        && (forall j :: old(senderI) + 1 <= j < senderI ==> j in state.processed)
      // after a completed normal send the loop condition is checked again
      ensures old(senderPc) == BatchSending && sendOk ==>
        (senderPc == SenderDone <==> !(senderI < batchCount && state.connectionActive))
      // after the loop head, the sender waits before an unprocessed batch only
      ensures senderPc == BatchDelay ==> senderI !in state.processed
      ensures senderPc == SenderDone ==> senderI >= batchCount || !state.connectionActive
    {
      match senderPc {
        case RetryBackoff(ri) =>
          BackoffElapsed();
        case RetrySending(ri) =>
          SendReturned(sendOk);
        case RetrySettling =>
          SenderLoopHead();
        case BatchDelay =>
          senderPc := BatchSending;
        case BatchSending =>
          SendReturned(sendOk);
      }
    }

    /** The retry's backoff sleep ended: abandon the batch after too many retries, else re-send it. */
    method BackoffElapsed()
      requires Valid() && senderPc.RetryBackoff?
      modifies this`senderI, this`senderPc, state`throttling, state`retryBatchIndex, state`retryCount, state`backoffDelay
      ensures Valid()
      ensures old(state.retryCount) >= config.maxRetries ==>
        state.Retry() == NO_RETRY && senderI >= old(senderPc).retryIndex + 1
        && (forall j :: old(senderPc).retryIndex + 1 <= j < senderI ==> j in state.processed)
        && config.maxRetries <= 1
      ensures old(state.retryCount) < config.maxRetries ==>
        senderPc == RetrySending(old(senderPc).retryIndex) && state.Retry() == old(state.Retry()) && senderI == old(senderI)
      ensures senderPc == BatchDelay ==> senderI !in state.processed
      ensures senderPc == SenderDone ==> senderI >= batchCount || !state.connectionActive
    {
      var ri := senderPc.retryIndex;
      if state.retryCount >= config.maxRetries {
        state.ResetRetry();
        senderI := ri + 1;
        SenderLoopHead();
      } else {
        senderPc := RetrySending(ri);
      }
    }

    /** A `ws.send` returned: on failure the connection is deactivated, else the batch is current. */
    method SendReturned(sendOk: bool)
      requires Valid() && (senderPc.RetrySending? || senderPc == BatchSending)
      modifies this`senderI, this`senderPc, this`sent, state`connectionActive, state`currentBatchIndex
      ensures Valid()
      ensures !sendOk ==> !state.connectionActive && senderPc == SenderDone && sent == old(sent)
      ensures sendOk ==> state.connectionActive == old(state.connectionActive)
      ensures old(senderPc).RetrySending? && sendOk ==>
        sent == old(sent) + [old(senderPc).retryIndex] && state.currentBatchIndex == old(senderPc).retryIndex
        && senderPc == RetrySettling && senderI == old(senderI)
      ensures old(senderPc) == BatchSending && sendOk ==>
        sent == old(sent) + [old(senderI)] && state.currentBatchIndex == old(senderI) && senderI >= old(senderI) + 1
        && (forall j :: old(senderI) + 1 <= j < senderI ==> j in state.processed)
      // after a completed normal send the loop condition is checked again
      ensures old(senderPc) == BatchSending && sendOk ==>
        (senderPc == SenderDone <==> !(senderI < batchCount && state.connectionActive))
      ensures senderPc == BatchDelay ==> senderI !in state.processed
      ensures senderPc == SenderDone ==> senderI >= batchCount || !state.connectionActive
    {
      if !sendOk {
        state.connectionActive := false;
        senderPc := SenderDone;
      } else if senderPc.RetrySending? {
        sent := sent + [senderPc.retryIndex];
        state.currentBatchIndex := senderPc.retryIndex;
        senderPc := RetrySettling;
      } else {
        sent := sent + [senderI];
        state.currentBatchIndex := senderI;
        senderI := senderI + 1;
        SenderLoopHead();
      }
    }

    /**
     * Act on one classified message (other than one whose `message` value cannot be counted):
     * results extend the list and complete a batch, the informational messages adjust the
     * receiver's and the retry state, unrecognised layouts are remembered.
     */
    method Absorb(kind: Kind)
      requires StateOk() && |unexpectedFormats| <= MAX_WARNINGS && kind != UnhashableMessage
      modifies this`expectingMessages, this`unexpectedFormats, state`processed, state`throttling,
        state`retryBatchIndex, state`retryCount, state`backoffDelay, results
      ensures StateOk() && |unexpectedFormats| <= MAX_WARNINGS
      ensures old(state.processed) <= state.processed
      ensures kind.InferenceResults? ==> results.items == old(results.items) + kind.items
      ensures !kind.InferenceResults? ==> results.items == old(results.items)
      // results close the retry if one is under way, otherwise they complete the current batch
      ensures kind.InferenceResults? && old(state.throttling) && old(state.retryBatchIndex).Some? ==>
        state.processed == old(state.processed) + {old(state.retryBatchIndex).value} && state.Retry() == NO_RETRY
      ensures kind.InferenceResults? && !(old(state.throttling) && old(state.retryBatchIndex).Some?) ==>
        state.processed == old(state.processed) + {state.currentBatchIndex} && state.Retry() == old(state.Retry())
      ensures kind == Throttling ==>
        state.Retry() == OnThrottling(old(state.Retry()), state.currentBatchIndex, config.backoffFactor)
      ensures !kind.InferenceResults? ==> state.processed == old(state.processed)
      ensures !kind.InferenceResults? && kind != Throttling ==> state.Retry() == old(state.Retry())
      ensures expectingMessages == (old(expectingMessages) && kind != Deactivated)
      ensures kind.UnknownLayout? ==> unexpectedFormats == NoteLayout(old(unexpectedFormats), kind.keys)
      ensures !kind.UnknownLayout? ==> unexpectedFormats == old(unexpectedFormats)
    {
      match kind {
        case InferenceResults(items) =>
          results.items := results.items + items;
          if state.throttling && state.retryBatchIndex.Some? {
            state.MarkBatchProcessed(state.retryBatchIndex.value);
            state.ResetRetry();
          } else {
            state.MarkBatchProcessed(state.currentBatchIndex);
          }
        case Deactivated =>
          expectingMessages := false;
        case Throttling =>
          if !state.throttling {
            state.StartRetry(state.currentBatchIndex);
          }
        case InsufficientData =>
        case OtherMessage =>
        case UnknownLayout(keys) =>
          unexpectedFormats := NoteLayout(unexpectedFormats, keys);
      }
    }

    /**
     * `ws.recv()` raised, or a frame was not a JSON object: the receiver deactivates the
     * connection and returns.
     */
    method ReceiveFailed()
      requires Valid() && receiving
      modifies this`receiving, state`connectionActive
      ensures Valid() && !state.connectionActive && !receiving
    {
      state.connectionActive := false;
      receiving := false;
    }

    /**
     * The one-second wait came back empty: once TIMEOUT_SECONDS have passed since the last
     * message the receiver stops expecting messages.
     */
    method WaitElapsed(now: real)
      requires Valid() && receiving
      modifies this`receiving, this`expectingMessages
      ensures Valid()
      ensures expectingMessages == (now - state.lastMessageTime < config.timeoutSeconds as real)
      ensures receiving == (expectingMessages && state.connectionActive)
    {
      if now - state.lastMessageTime >= config.timeoutSeconds as real {
        expectingMessages := false;
      }
      receiving := expectingMessages && state.connectionActive;
    }

    /**
     * A JSON object arrived at `receivedAt`: it is classified and acted on, then, when the
     * heartbeat interval has passed by `checkedAt`, the connection is checked for staleness.
     */
    method ObjectArrived(fields: map<string, Json>, receivedAt: real, checkedAt: real)
      requires Valid() && receiving
      modifies this`receiving, this`expectingMessages, this`unexpectedFormats, this`lastHeartbeatTime,
        state`connectionActive, state`lastMessageTime, state`processed, state`throttling,
        state`retryBatchIndex, state`retryCount, state`backoffDelay, state`counterKeys, results
      ensures Valid()
      ensures state.lastMessageTime == receivedAt
      ensures state.counterKeys == old(state.counterKeys) + CountedClasses(fields, old(unexpectedFormats))
      ensures old(state.processed) <= state.processed
      ensures receiving ==> expectingMessages && state.connectionActive
      ensures !old(state.connectionActive) ==> !state.connectionActive
      // the results grow by exactly the payload of a results message, and only then
      ensures Classify(fields).InferenceResults? ==> results.items == old(results.items) + Classify(fields).items
      ensures !Classify(fields).InferenceResults? ==> results.items == old(results.items)
      // results close the retry if one is under way, otherwise they complete the current batch
      ensures Classify(fields).InferenceResults? ==>
        if old(state.throttling) && old(state.retryBatchIndex).Some? then
          state.processed == old(state.processed) + {old(state.retryBatchIndex).value} && state.Retry() == NO_RETRY
        else
          state.processed == old(state.processed) + {state.currentBatchIndex} && state.Retry() == old(state.Retry())
      // a throttling message starts a retry of the current batch only when none is under way
      ensures Classify(fields) == Throttling ==>
        state.Retry() == OnThrottling(old(state.Retry()), state.currentBatchIndex, config.backoffFactor)
      ensures Classify(fields) == Deactivated ==> !receiving
      // no other message touches the retry fields or the processed set
      ensures !Classify(fields).InferenceResults? ==> state.processed == old(state.processed)
      ensures !Classify(fields).InferenceResults? && Classify(fields) != Throttling ==> state.Retry() == old(state.Retry())
      // unrecognised layouts are remembered up to three
      ensures Classify(fields).UnknownLayout? ==> unexpectedFormats == NoteLayout(old(unexpectedFormats), fields.Keys)
      ensures !Classify(fields).UnknownLayout? ==> unexpectedFormats == old(unexpectedFormats)
      // a `message` value that cannot be counted raises, which ends the receiver
      ensures Classify(fields) == UnhashableMessage ==> !state.connectionActive && !receiving
      // the staleness check
      ensures (Classify(fields) != UnhashableMessage && checkedAt - old(lastHeartbeatTime) >= HEARTBEAT_INTERVAL
               && StaleHealth(checkedAt - receivedAt, config.pingInterval) == Inactive) ==>
        !state.connectionActive && !receiving
      // before the heartbeat is due, any message but 'deactivated' keeps the receiver going
      ensures (Classify(fields) != UnhashableMessage && Classify(fields) != Deactivated
               && checkedAt - old(lastHeartbeatTime) < HEARTBEAT_INTERVAL) ==>
        receiving == state.connectionActive && state.connectionActive == old(state.connectionActive)
        && lastHeartbeatTime == old(lastHeartbeatTime)
    {
      state.lastMessageTime := receivedAt;
      state.counterKeys := state.counterKeys + CountedClasses(fields, unexpectedFormats);
      var kind := Classify(fields);
      if kind == UnhashableMessage {
        state.connectionActive := false;
        receiving := false;
        return;
      }
      Dispatch(kind, checkedAt);
    }

    /** A classified message that could be counted is acted on, then the heartbeat check runs. */
    method Dispatch(kind: Kind, checkedAt: real)
      requires Valid() && receiving && kind != UnhashableMessage
      modifies this`receiving, this`expectingMessages, this`unexpectedFormats, this`lastHeartbeatTime,
        state`connectionActive, state`processed, state`throttling,
        state`retryBatchIndex, state`retryCount, state`backoffDelay, results
      ensures Valid()
      ensures old(state.processed) <= state.processed
      ensures receiving ==> expectingMessages && state.connectionActive
      ensures !old(state.connectionActive) ==> !state.connectionActive
      ensures kind.InferenceResults? ==> results.items == old(results.items) + kind.items
      ensures !kind.InferenceResults? ==> results.items == old(results.items)
      ensures kind.InferenceResults? ==>
        if old(state.throttling) && old(state.retryBatchIndex).Some? then
          state.processed == old(state.processed) + {old(state.retryBatchIndex).value} && state.Retry() == NO_RETRY
        else
          state.processed == old(state.processed) + {state.currentBatchIndex} && state.Retry() == old(state.Retry())
      ensures kind == Throttling ==>
        state.Retry() == OnThrottling(old(state.Retry()), state.currentBatchIndex, config.backoffFactor)
      ensures kind == Deactivated ==> !receiving
      ensures !kind.InferenceResults? ==> state.processed == old(state.processed)
      ensures !kind.InferenceResults? && kind != Throttling ==> state.Retry() == old(state.Retry())
      ensures kind.UnknownLayout? ==> unexpectedFormats == NoteLayout(old(unexpectedFormats), kind.keys)
      ensures !kind.UnknownLayout? ==> unexpectedFormats == old(unexpectedFormats)
      ensures (checkedAt - old(lastHeartbeatTime) >= HEARTBEAT_INTERVAL
               && StaleHealth(checkedAt - state.lastMessageTime, config.pingInterval) == Inactive) ==>
        !state.connectionActive && !receiving
      ensures (kind != Deactivated && checkedAt - old(lastHeartbeatTime) < HEARTBEAT_INTERVAL) ==>
        receiving == state.connectionActive && state.connectionActive == old(state.connectionActive)
        && lastHeartbeatTime == old(lastHeartbeatTime)
    {
      Absorb(kind);
      Heartbeat(checkedAt);
    }

    /**
     * The check that follows every message: once HEARTBEAT_INTERVAL has passed since the last
     * check, a connection silent for more than five ping intervals is deactivated and the
     * receiver returns; otherwise it re-checks its loop condition.
     */
    method Heartbeat(checkedAt: real)
      requires StateOk() && SenderOk() && |unexpectedFormats| <= MAX_WARNINGS
      modifies this`receiving, this`lastHeartbeatTime, state`connectionActive
      ensures Valid()
      ensures !old(state.connectionActive) ==> !state.connectionActive
      ensures old(checkedAt - lastHeartbeatTime >= HEARTBEAT_INTERVAL
                  && StaleHealth(checkedAt - state.lastMessageTime, config.pingInterval) == Inactive) ==>
        !state.connectionActive && !receiving
      ensures state.connectionActive == old(state.connectionActive) || !receiving
      ensures receiving ==> expectingMessages && state.connectionActive
      ensures !old(state.connectionActive) || !old(expectingMessages) ==> !receiving
      ensures old(checkedAt - lastHeartbeatTime < HEARTBEAT_INTERVAL) ==>
        receiving == (expectingMessages && state.connectionActive) && state.connectionActive == old(state.connectionActive)
        && lastHeartbeatTime == old(lastHeartbeatTime)
    {
      if checkedAt - lastHeartbeatTime >= HEARTBEAT_INTERVAL {
        if StaleHealth(checkedAt - state.lastMessageTime, config.pingInterval) == Inactive {
          state.connectionActive := false;
          receiving := false;
          return;
        }
        lastHeartbeatTime := checkedAt;
      }
      receiving := expectingMessages && state.connectionActive;
    }

    /**
     * Resume the receiver with what its wait returned. A frame that parses to something other
     * than an object still restamps the last-message time, then raises at its first `in` test,
     * its subscript or its `.keys()`, which ends the receiver as an unparseable frame does.
     */
    method ReceiverStep(ev: RecvEvent)
      requires Valid() && receiving
      modifies this`receiving, this`expectingMessages, this`unexpectedFormats, this`lastHeartbeatTime,
        state`connectionActive, state`lastMessageTime, state`processed, state`throttling,
        state`retryBatchIndex, state`retryCount, state`backoffDelay, state`counterKeys, results
      ensures Valid()
      ensures old(state.processed) <= state.processed && old(results.items) <= results.items
      ensures old(state.counterKeys) <= state.counterKeys
      ensures receiving ==> expectingMessages && state.connectionActive
      ensures !old(state.connectionActive) ==> !state.connectionActive
      ensures ev.WaitElapsed? ==>
        (receiving <==> ev.now - state.lastMessageTime < config.timeoutSeconds as real && state.connectionActive)
      ensures !(ev.Arrived? && ev.frame.Parsed? && ev.frame.value.Obj?) ==>
        state.processed == old(state.processed) && results.items == old(results.items)
        && state.counterKeys == old(state.counterKeys)
      ensures ev.Arrived? && ev.frame.Parsed? ==> state.lastMessageTime == ev.receivedAt
      ensures !ev.Arrived? ==> state.lastMessageTime == old(state.lastMessageTime)
      ensures (ev.Arrived? && !(ev.frame.Parsed? && ev.frame.value.Obj?)) || ev.RecvFailed? ==>
        !state.connectionActive && !receiving
    {
      match ev {
        case RecvFailed =>
          ReceiveFailed();
        case WaitElapsed(now) =>
          WaitElapsed(now);
        case Arrived(frame, receivedAt, checkedAt) =>
          if frame.Unparseable? {
            ReceiveFailed();
          } else if !frame.value.Obj? {
            state.lastMessageTime := receivedAt;
            ReceiveFailed();
          } else {
            ObjectArrived(frame.value.fields, receivedAt, checkedAt);
          }
      }
    }
  }
}
