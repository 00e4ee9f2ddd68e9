/**
 * The reconnection loop of the year-long bulk evaluation script: one shared state and one
 * result list for the whole run, and up to MAX_RECONNECT_ATTEMPTS + 1 connection attempts.
 *
 * The outcome of each connection attempt and the order in which the coroutines of a connected
 * attempt resume are inputs (`script`); each attempt is driven by the session's step methods.
 */
module Supervisor {

  import opened Wrappers
  import opened Json
  import opened Session
  import opened Arith

  /** `--max-reconnect-attempts` and RECONNECT_BACKOFF (seconds). */
  datatype ReconnectConfig = ReconnectConfig(maxReconnectAttempts: nat, reconnectBackoff: real)

  const DEFAULT_RECONNECT := ReconnectConfig(5, 2.0)

  /** One resumption inside a connected attempt. */
  datatype Step =
    | SenderResumes(sendOk: bool)
    | ReceiverResumes(ev: RecvEvent)
    | PingGivesUp            // the ping task saw more than five unanswered pings

  /** What `websockets.connect` did, and for a connection the order of resumptions. */
  datatype Connect = Refused | Connected(openedAt: real, steps: seq<Step>)

  /** How an attempt ended. */
  datatype AttemptEnd =
    | NotConnected                                 // connecting raised
    | ReceiverRaised                               // the receiver's final sort of `message_counts` raised
    | Ended(connectionActive: bool, allProcessed: bool)  // both coroutines returned
    | CutShort                                     // the resumptions given ran out first

  /**
   * How the attempt stands: once the receiver has returned from its loop it sorts the Counter,
   * and an exception there leaves `gather` at once; otherwise the attempt ends when both
   * coroutines have returned.
   */
  function EndOf(att: Attempt): (e: AttemptEnd)
    reads att, att.state
    ensures e != NotConnected
    ensures e == ReceiverRaised <==> !att.receiving && SortRaises(att.state.counterKeys)
    ensures e.Ended? <==> att.senderPc == SenderDone && !att.receiving && !SortRaises(att.state.counterKeys)
    ensures e.Ended? ==>
      e.connectionActive == att.state.connectionActive
      && (e.allProcessed <==> forall b :: 0 <= b < att.batchCount ==> b in att.state.processed)
  {
    if !att.receiving && SortRaises(att.state.counterKeys) then ReceiverRaised
    else if att.senderPc == SenderDone && !att.receiving then
      Ended(att.state.connectionActive, FirstUnprocessed(att.state.processed, 0, att.batchCount).None?)
    else CutShort
  }

  /** The sleep before reconnect attempt number `attempts` (counted from one). */
  function ReconnectDelay(rc: ReconnectConfig, attempts: nat): real
    requires attempts >= 1
  {
    rc.reconnectBackoff * Pow(2.0, attempts - 1)
  }

  /** The first sleep is RECONNECT_BACKOFF and each further one doubles the previous one. */
  lemma ReconnectDelayDoubles(rc: ReconnectConfig, attempts: nat)
    requires attempts >= 1
    ensures attempts == 1 ==> ReconnectDelay(rc, attempts) == rc.reconnectBackoff
    ensures attempts >= 2 ==> ReconnectDelay(rc, attempts) == 2.0 * ReconnectDelay(rc, attempts - 1)
  {
    if attempts >= 2 {
      var x := Pow(2.0, attempts - 2);
      assert Pow(2.0, attempts - 1) == 2.0 * x;
      assert rc.reconnectBackoff * (2.0 * x) == 2.0 * (rc.reconnectBackoff * x);
    }
  }

  /**
   * As written: only an exception reaches the `except` branch that reconnects. Once connected,
   * the sender catches all of its own, and the receiver lets out only the one its final sort
   * raises; a connection deactivated by the staleness check, the ping task or a failed send
   * lets `gather` return normally, and the `break` after it ends the run.
   */
  predicate WrittenReconnects(e: AttemptEnd) {
    e.NotConnected? || e.ReceiverRaised?
  }

  /**
   * As intended by the "forcing reconnection" paths: an attempt that ended with the connection
   * deactivated while batches remain unprocessed is followed by another attempt too.
   */
  predicate IntendedReconnects(e: AttemptEnd) {
    e.NotConnected? || e.ReceiverRaised? || (e.Ended? && !e.connectionActive && !e.allProcessed)
  }

  datatype Policy = AsWritten | AsIntended

  predicate Reconnects(policy: Policy, e: AttemptEnd) {
    if policy == AsWritten then WrittenReconnects(e) else IntendedReconnects(e)
  }

  /**
   * Hand the resumptions to the coroutines of one attempt until both have returned or the
   * receiver's final sort has raised.
   */
  method RunAttempt(att: Attempt, steps: seq<Step>) returns (end: AttemptEnd)
    requires att.Valid()
    modifies att, att.state, att.results
    ensures att.Valid()
    ensures old(att.state.processed) <= att.state.processed
    ensures old(att.results.items) <= att.results.items
    ensures old(att.state.counterKeys) <= att.state.counterKeys
    ensures end == EndOf(att) && end != NotConnected
    ensures end.Ended? <==> att.senderPc == SenderDone && !att.receiving && !SortRaises(att.state.counterKeys)
    ensures end == ReceiverRaised <==> !att.receiving && SortRaises(att.state.counterKeys)
    ensures end.Ended? ==> end == Ended(att.state.connectionActive, FirstUnprocessed(att.state.processed, 0, att.batchCount).None?)
    // a Counter whose keys already cannot be sorted makes every attempt that gets that far raise
    ensures SortRaises(old(att.state.counterKeys)) ==> SortRaises(att.state.counterKeys) && !end.Ended?
    // an attempt that has already ended stays ended the same way
    ensures old(EndOf(att)) != CutShort ==> end == old(EndOf(att))
  {
    var j := 0;
    while j < |steps| && EndOf(att) == CutShort
      invariant j <= |steps|
      invariant j == 0 ==> EndOf(att) == old(EndOf(att))
      invariant old(EndOf(att)) != CutShort ==> j == 0
      invariant att.Valid()
      invariant old(att.state.processed) <= att.state.processed
      invariant old(att.results.items) <= att.results.items
      invariant old(att.state.counterKeys) <= att.state.counterKeys
      decreases |steps| - j
    {
      match steps[j] {
        case SenderResumes(ok) =>
          if att.senderPc != SenderDone {
            att.SenderStep(ok);
          }
        case ReceiverResumes(ev) =>
          if att.receiving {
            att.ReceiverStep(ev);
          }
        case PingGivesUp =>
          if att.state.connectionActive {
            att.state.connectionActive := false;
          }
      }
      j := j + 1;
    }
    end := EndOf(att);
    if SortRaises(old(att.state.counterKeys)) {
      SubsetCard(old(att.state.counterKeys), att.state.counterKeys);
    }
  }

  /**
   * One pass of the loop body up to the reconnect decision: reactivate the connection flag,
   * connect, and for a connection run the attempt.
   */
  method TryOnce(state: SharedState, results: ResultList, batchCount: nat, cfg: Config, outcome: Connect)
    returns (end: AttemptEnd)
    requires ReadyFor(state, batchCount, cfg.backoffFactor)
    modifies state, results
    ensures ReadyFor(state, batchCount, cfg.backoffFactor)
    ensures old(results.items) <= results.items && old(state.processed) <= state.processed
    ensures old(state.counterKeys) <= state.counterKeys
    ensures end == NotConnected <==> outcome == Refused
    ensures end == ReceiverRaised ==> SortRaises(state.counterKeys)
    ensures SortRaises(old(state.counterKeys)) ==> SortRaises(state.counterKeys) && !end.Ended?
  {
    state.connectionActive := true;
    match outcome {
      case Refused =>
        end := NotConnected;
      case Connected(openedAt, steps) =>
        var att := new Attempt(state, results, batchCount, cfg, openedAt);
        end := RunAttempt(att, steps);
    }
  }

  /** How many of the `ends` led to a reconnect under `policy`. */
  function Reconnections(policy: Policy, ends: seq<AttemptEnd>): nat
    decreases |ends|
  {
    if ends == [] then 0
    else Reconnections(policy, ends[..|ends| - 1]) + (if Reconnects(policy, ends[|ends| - 1]) then 1 else 0)
  }

  lemma ReconnectionsStep(policy: Policy, ends: seq<AttemptEnd>, end: AttemptEnd)
    ensures Reconnections(policy, ends + [end]) == Reconnections(policy, ends) + if Reconnects(policy, end) then 1 else 0
  {
    assert (ends + [end])[..|ends|] == ends;
  }

  function Min(a: nat, b: nat): nat {
    if a <= b then a else b
  }

  /**
   * The reconnection loop. The shared state and the result list (starting from the results
   * loaded from an earlier run) are created once; every attempt reactivates the connection
   * flag and resumes from the first unprocessed batch. `ends` records how each attempt ended
   * and `delays` the reconnect sleeps.
   */
  method Run(policy: Policy, batchCount: nat, cfg: Config, rc: ReconnectConfig, loaded: seq<Json>,
             startedAt: real, script: seq<Connect>)
    returns (state: SharedState, results: ResultList, ends: seq<AttemptEnd>, delays: seq<real>)
    ensures fresh(state) && fresh(results)
    ensures loaded <= results.items
    ensures ReadyFor(state, batchCount, cfg.backoffFactor)
    // at most MAX_RECONNECT_ATTEMPTS + 1 attempts, one per scripted outcome
    ensures |ends| <= rc.maxReconnectAttempts + 1 && |ends| <= |script|
    ensures forall k :: 0 <= k < |ends| ==> (ends[k] == NotConnected <==> script[k] == Refused)
    // every attempt but the last was followed by a reconnect
    ensures forall k :: 0 <= k < |ends| - 1 ==> Reconnects(policy, ends[k])
    // the loop stops at a non-reconnecting end, or when attempts or outcomes run out
    ensures |ends| == |script| || |ends| == rc.maxReconnectAttempts + 1
      || (|ends| > 0 && !Reconnects(policy, ends[|ends| - 1]))
    // one exponentially growing sleep per reconnect, except after the last permitted attempt
    ensures |delays| == Min(Reconnections(policy, ends), rc.maxReconnectAttempts)
    ensures forall k :: 0 <= k < |delays| ==> delays[k] == ReconnectDelay(rc, k + 1)
    ensures |script| > 0 ==> |ends| > 0
    // a Counter that once failed to sort fails in every later attempt that gets that far
    ensures forall j, k :: 0 <= j < k < |ends| && ends[j] == ReceiverRaised ==> !ends[k].Ended?
    // as written, an attempt whose coroutines both returned is the last, however it ended
    ensures policy == AsWritten ==> forall k :: 0 <= k < |ends| && ends[k].Ended? ==> k == |ends| - 1
    // as intended, a deactivated attempt with batches left is followed by another while any remain
    ensures policy == AsIntended ==> forall k ::
      (0 <= k < |ends| && ends[k] == Ended(false, false) && k < rc.maxReconnectAttempts && k + 1 < |script|) ==>
        k + 1 < |ends|
    // as written, every attempt but the last was refused or its receiver raised
    ensures policy == AsWritten ==> forall k :: 0 <= k < |ends| - 1 ==> ends[k] == NotConnected || ends[k] == ReceiverRaised
  {
    state := new SharedState(cfg.backoffFactor, startedAt);
    results := new ResultList();
    results.items := loaded;
    ends, delays := Reconnect(policy, state, results, batchCount, cfg, rc, script);
  }

  /** The `while` loop of the reconnection loop over the state and results it was given. */
  method Reconnect(policy: Policy, state: SharedState, results: ResultList, batchCount: nat, cfg: Config,
                   rc: ReconnectConfig, script: seq<Connect>)
    returns (ends: seq<AttemptEnd>, delays: seq<real>)
    requires ReadyFor(state, batchCount, cfg.backoffFactor)
    modifies state, results
    ensures old(results.items) <= results.items
    ensures ReadyFor(state, batchCount, cfg.backoffFactor)
    ensures |ends| <= rc.maxReconnectAttempts + 1 && |ends| <= |script|
    ensures forall k :: 0 <= k < |ends| ==> (ends[k] == NotConnected <==> script[k] == Refused)
    // every attempt but the last was followed by a reconnect
    ensures forall k :: 0 <= k < |ends| - 1 ==> Reconnects(policy, ends[k])
    // the loop stops at a non-reconnecting end, or when attempts or outcomes run out
    ensures |ends| == |script| || |ends| == rc.maxReconnectAttempts + 1
      || (|ends| > 0 && !Reconnects(policy, ends[|ends| - 1]))
    // one exponentially growing sleep per reconnect, except after the last permitted attempt
    ensures |delays| == Min(Reconnections(policy, ends), rc.maxReconnectAttempts)
    ensures forall k :: 0 <= k < |delays| ==> delays[k] == ReconnectDelay(rc, k + 1)
    ensures |script| > 0 ==> |ends| > 0
    // a Counter that once failed to sort fails in every later attempt that gets that far
    ensures forall j, k :: 0 <= j < k < |ends| && ends[j] == ReceiverRaised ==> !ends[k].Ended?
    // as written, an attempt whose coroutines both returned is the last, however it ended
    ensures policy == AsWritten ==> forall k :: 0 <= k < |ends| && ends[k].Ended? ==> k == |ends| - 1
    // as intended, a deactivated attempt with batches left is followed by another while any remain
    ensures policy == AsIntended ==> forall k ::
      (0 <= k < |ends| && ends[k] == Ended(false, false) && k < rc.maxReconnectAttempts && k + 1 < |script|) ==>
        k + 1 < |ends|
  {
    ends := [];
    delays := [];
    var attempts := 0;
    while attempts <= rc.maxReconnectAttempts && |ends| < |script|
      invariant old(results.items) <= results.items
      invariant ReadyFor(state, batchCount, cfg.backoffFactor)
      invariant |ends| <= |script|
      invariant attempts == |ends| == Reconnections(policy, ends)
      invariant forall k :: 0 <= k < |ends| ==> Reconnects(policy, ends[k])
      invariant forall k :: 0 <= k < |ends| ==> (ends[k] == NotConnected <==> script[k] == Refused)
      invariant |delays| == Min(attempts, rc.maxReconnectAttempts)
      invariant forall k :: 0 <= k < |delays| ==> delays[k] == ReconnectDelay(rc, k + 1)
      invariant attempts <= rc.maxReconnectAttempts + 1
      invariant (exists j :: 0 <= j < |ends| && ends[j] == ReceiverRaised) ==> SortRaises(state.counterKeys)
      invariant forall j, k :: 0 <= j < k < |ends| && ends[j] == ReceiverRaised ==> !ends[k].Ended?
      decreases |script| - |ends|
    {
      var end := TryOnce(state, results, batchCount, cfg, script[|ends|]);
      ReconnectionsStep(policy, ends, end);
      ends := ends + [end];
      if !Reconnects(policy, end) {
        break;
      }
      attempts := attempts + 1;
      if attempts <= rc.maxReconnectAttempts {
        delays := delays + [ReconnectDelay(rc, attempts)];
      }
    }
  }

  // ---------------------------------------------------------------- forced reconnections

  /** A first connection attempt at time 0 over a fresh shared state, with the default settings. */
  method FirstAttempt(batchCount: nat) returns (att: Attempt)
    ensures fresh(att) && fresh(att.state) && fresh(att.results) && att.Valid()
    ensures att.batchCount == batchCount && att.config == DEFAULT_CONFIG
    ensures att.receiving && att.expectingMessages && att.unexpectedFormats == {} && att.lastHeartbeatTime == 0.0
    ensures att.state.connectionActive && att.state.lastMessageTime == 0.0 && att.state.Retry() == NO_RETRY
    ensures att.state.processed == {} && att.state.counterKeys == {} && att.state.currentBatchIndex == 0
    ensures batchCount == 0 ==> att.senderPc == SenderDone
    ensures batchCount > 0 ==> att.senderPc == BatchDelay && att.senderI == 0
  {
    var state := new SharedState(DEFAULT_CONFIG.backoffFactor, 0.0);
    var results := new ResultList();
    att := new Attempt(state, results, batchCount, DEFAULT_CONFIG, 0.0);
  }

  /**
   * An attempt over one batch whose send raises: the sender deactivates the connection and
   * returns, the receiver's next empty wait sees the inactive connection and returns too, and
   * the attempt ends with the connection inactive and the batch unprocessed. As written that
   * end does not reconnect, so `Run` makes no further attempt; as intended it does.
   */
  method FailedSendEndsRun() returns (end: AttemptEnd)
    ensures end == Ended(false, false)
    ensures !Reconnects(AsWritten, end) && Reconnects(AsIntended, end)
  {
    var att := FirstAttempt(1);
    att.SenderStep(true);                 // BATCH_DELAY elapsed
    att.SenderStep(false);                // ws.send raised
    att.ReceiverStep(WaitElapsed(1.0));
    end := RunAttempt(att, []);
  }

  /**
   * An attempt over one batch during whose send the ping task gives up: the send completes,
   * the sender's loop sees the inactive connection and returns, and so does the receiver. As
   * written the run ends with the batch unanswered; as intended it reconnects.
   */
  method PingGiveUpEndsRun() returns (end: AttemptEnd)
    ensures end == Ended(false, false)
    ensures !Reconnects(AsWritten, end) && Reconnects(AsIntended, end)
  {
    var att := FirstAttempt(1);
    att.SenderStep(true);                 // BATCH_DELAY elapsed, ws.send pending
    assert att.senderPc == BatchSending && att.senderI == 0 && att.receiving;
    att.state.connectionActive := false;  // more than five pings unanswered
    att.SenderStep(true);                 // ws.send completed
    assert att.senderPc == SenderDone && !att.state.connectionActive && att.state.processed == {};
    att.ReceiverStep(WaitElapsed(1.0));
    assert EndOf(att) == Ended(false, false);
    end := RunAttempt(att, []);
  }

  /**
   * A numeric 'message' followed by results puts a number and a string among the Counter's
   * keys; when the receiver stops, its final sort raises, `gather` raises with it, and both
   * policies reconnect, with the sender still pending.
   */
  method MixedCounterRaises() returns (end: AttemptEnd)
    ensures end == ReceiverRaised
    ensures Reconnects(AsWritten, end) && Reconnects(AsIntended, end)
  {
    var att := FirstAttempt(1);
    var note := map["message" := Num(5.0)];
    var answer := map["inference" := Arr([])];
    assert Classify(note) == OtherMessage && NumberKey in CountedClasses(note, {});
    assert Classify(answer).InferenceResults? && StringKey in CountedClasses(answer, {});
    att.ObjectArrived(note, 0.5, 0.5);
    assert att.receiving && NumberKey in att.state.counterKeys && att.lastHeartbeatTime == 0.0;
    att.ObjectArrived(answer, 1.0, 1.0);
    assert att.receiving && {NumberKey, StringKey} <= att.state.counterKeys && att.state.lastMessageTime == 1.0;
    att.ReceiverStep(WaitElapsed(200.0));  // TIMEOUT_SECONDS of silence
    assert !att.receiving && {NumberKey, StringKey} <= att.state.counterKeys;
    SubsetCard({NumberKey, StringKey}, att.state.counterKeys);
    assert EndOf(att) == ReceiverRaised;
    end := RunAttempt(att, []);
  }
}
