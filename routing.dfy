/**
 * The receive loops of the two live subscription scripts: every frame read from the websocket
 * is parsed, annotated with ISINs and written to one of the output files. The price script has
 * no exception handler, so the first failure ends it; the price-and-trades script catches every
 * exception, reconnects both sockets and sends both subscriptions again.
 */
module Routing {

  import opened Wrappers
  import opened Json
  import opened Requests
  import opened Annotation

  /** What one `await ws.recv()` and `json.loads` give: a JSON value, non-JSON text, or a closed socket. */
  datatype Frame = Parsed(value: Json) | NotJson | RecvFailed

  /** Why a frame ends the price script or makes the trades script reconnect. */
  datatype Failure = ConnectionClosed | BadJson | Raised(error: PyError) | Revoked

  /** Seconds after which the price script sends a fresh token. */
  const TOKEN_REFRESH_INTERVAL: real := 60.0

  /** Whether `'inference' in v` is False without raising: the no-inference file's records. */
  predicate InferenceAbsent(v: Json) {
    || (v.Obj? && "inference" !in v.fields)
    || (v.Arr? && Str("inference") !in v.items)
    || (v.Str? && !Contains(v.s, "inference"))
  }

  // ---------------------------------------------------------------- subscribe_price_variations.py

  datatype PriceOutcome = PriceResponse(record: Json) | PriceNoInference(record: Json) | Crash(failure: Failure)

  /** Where one frame goes in the price script. */
  function PriceRoute(figiToIsin: map<string, string>, frame: Frame): PriceOutcome {
    match frame
    case RecvFailed => Crash(ConnectionClosed)
    case NotJson => Crash(BadJson)
    case Parsed(v) =>
      match PyIn("inference", v)
      case Err(e) => Crash(Raised(e))
      case Ok(hit) =>
        if !hit then PriceNoInference(v)
        else if !v.Obj? then Crash(Raised(TypeError))
        else match AnnotatedInference(figiToIsin, v.fields["inference"])
          case Err(e) => Crash(Raised(e))
          case Ok(p) => PriceResponse(Obj(v.fields["inference" := p]))
  }

  /**
   * A frame is written to the responses file exactly when it is a dictionary with an 'inference'
   * key whose payload annotates without raising, and the record is that dictionary with the
   * annotated payload; it is written to the no-inference file, unchanged, exactly when `in`
   * answers False; everything else ends the script.
   */
  lemma PriceRouteSpec(figiToIsin: map<string, string>, frame: Frame)
    ensures PriceRoute(figiToIsin, frame).PriceResponse? <==>
      && frame.Parsed? && frame.value.Obj? && "inference" in frame.value.fields
      && AnnotatedInference(figiToIsin, frame.value.fields["inference"]).Ok?
    ensures PriceRoute(figiToIsin, frame).PriceResponse? ==>
      PriceRoute(figiToIsin, frame).record
        == Obj(frame.value.fields["inference" := AnnotatedInference(figiToIsin, frame.value.fields["inference"]).value])
    ensures PriceRoute(figiToIsin, frame).PriceNoInference? <==> frame.Parsed? && InferenceAbsent(frame.value)
    ensures PriceRoute(figiToIsin, frame).PriceNoInference? ==> frame.Parsed? && PriceRoute(figiToIsin, frame).record == frame.value
  {
  }

  /** The price script's output: the two files, the token sends (by frame index) and how it ended. */
  datatype PriceLog = PriceLog(
    responses: seq<Json>,
    noInference: seq<Json>,
    tokenSends: seq<nat>,
    lastTokenTime: real,
    crash: Option<Failure>)

  /**
   * After frame k: `if time.time() - last_token_send_time > 60`, send a token and restamp.
   * The two clock readings are `checkAt(k)` and `stampAt(k)`.
   */
  function TokenCheck(log: PriceLog, k: nat, checkAt: nat -> real, stampAt: nat -> real): PriceLog {
    if checkAt(k) - log.lastTokenTime > TOKEN_REFRESH_INTERVAL
    then log.(tokenSends := log.tokenSends + [k], lastTokenTime := stampAt(k))
    else log
  }

  function PriceStep(figiToIsin: map<string, string>, log: PriceLog, frame: Frame, k: nat,
                     checkAt: nat -> real, stampAt: nat -> real): PriceLog {
    if log.crash.Some? then log
    else match PriceRoute(figiToIsin, frame)
      case Crash(f) => log.(crash := Some(f))
      case PriceResponse(j) => TokenCheck(log.(responses := log.responses + [j]), k, checkAt, stampAt)
      case PriceNoInference(j) => TokenCheck(log.(noInference := log.noInference + [j]), k, checkAt, stampAt)
  }

  /** The price script's loop over a finite script of frames, the first crash ending it. */
  function PriceRun(figiToIsin: map<string, string>, frames: seq<Frame>, start: real,
                    checkAt: nat -> real, stampAt: nat -> real): PriceLog
    decreases |frames|
  {
    if frames == [] then PriceLog([], [], [], start, None)
    else PriceStep(figiToIsin, PriceRun(figiToIsin, frames[..|frames| - 1], start, checkAt, stampAt),
                   frames[|frames| - 1], |frames| - 1, checkAt, stampAt)
  }

  /** Once the script has crashed, later frames change nothing. */
  lemma {:induction false} PriceRunStops(figiToIsin: map<string, string>, frames: seq<Frame>, n: nat, start: real,
                                         checkAt: nat -> real, stampAt: nat -> real)
    requires n <= |frames| && PriceRun(figiToIsin, frames[..n], start, checkAt, stampAt).crash.Some?
    ensures PriceRun(figiToIsin, frames, start, checkAt, stampAt) == PriceRun(figiToIsin, frames[..n], start, checkAt, stampAt)
    decreases |frames|
  {
    if n < |frames| {
      var init := frames[..|frames| - 1];
      assert init[..n] == frames[..n];
      PriceRunStops(figiToIsin, init, n, start, checkAt, stampAt);
    } else {
      assert frames[..n] == frames;
    }
  }

  /**
   * The price script's `while True` loop: receive, route, write, and refresh the token when
   * more than 60 seconds have passed since the last send.
   */
  method PriceListen(figiToIsin: map<string, string>, frames: seq<Frame>, start: real,
                     checkAt: nat -> real, stampAt: nat -> real) returns (log: PriceLog)
    ensures log == PriceRun(figiToIsin, frames, start, checkAt, stampAt)
  {
    var responses: seq<Json> := [];
    var noInference: seq<Json> := [];
    var tokenSends: seq<nat> := [];
    var lastTokenSendTime := start;
    var i := 0;
    while i < |frames|
      invariant 0 <= i <= |frames|
      invariant PriceRun(figiToIsin, frames[..i], start, checkAt, stampAt)
        == PriceLog(responses, noInference, tokenSends, lastTokenSendTime, None)
    {
      assert frames[..i + 1][..i] == frames[..i];
      var outcome := PriceRouteFrame(figiToIsin, frames[i]);
      if outcome.Crash? {
        log := PriceLog(responses, noInference, tokenSends, lastTokenSendTime, Some(outcome.failure));
        PriceRunStops(figiToIsin, frames, i + 1, start, checkAt, stampAt);
        return;
      }
      if outcome.PriceResponse? {
        responses := responses + [outcome.record];
      } else {
        noInference := noInference + [outcome.record];
      }
      if checkAt(i) - lastTokenSendTime > TOKEN_REFRESH_INTERVAL {
        tokenSends := tokenSends + [i];
        lastTokenSendTime := stampAt(i);
      }
      i := i + 1;
    }
    assert frames[..i] == frames;
    log := PriceLog(responses, noInference, tokenSends, lastTokenSendTime, None);
  }

  /** One pass of the loop body up to the write: parse, test for 'inference', annotate. */
  method PriceRouteFrame(figiToIsin: map<string, string>, frame: Frame) returns (outcome: PriceOutcome)
    ensures outcome == PriceRoute(figiToIsin, frame)
  {
    if frame.RecvFailed? {
      return Crash(ConnectionClosed);
    } else if frame.NotJson? {
      return Crash(BadJson);
    }
    var v := frame.value;
    var hit := PyIn("inference", v);
    if hit.Err? {
      outcome := Crash(Raised(hit.error));
    } else if !hit.value {
      outcome := PriceNoInference(v);
    } else if !v.Obj? {
      outcome := Crash(Raised(TypeError));
    } else {
      var annotated := AnnotateInference(figiToIsin, v.fields["inference"]);
      if annotated.Err? {
        outcome := Crash(Raised(annotated.error));
      } else {
        outcome := PriceResponse(Obj(v.fields["inference" := annotated.value]));
      }
    }
  }

  /**
   * Every frame before the first crash lands in exactly one of the two files, in order: the run
   * ends without a crash exactly when no frame crashes, and otherwise at the first frame that
   * does, after writing one record per earlier frame.
   */
  lemma {:induction false} PriceRunPartition(figiToIsin: map<string, string>, frames: seq<Frame>, start: real,
                                             checkAt: nat -> real, stampAt: nat -> real)
    ensures var log := PriceRun(figiToIsin, frames, start, checkAt, stampAt);
      && (log.crash.None? <==> forall k :: 0 <= k < |frames| ==> !PriceRoute(figiToIsin, frames[k]).Crash?)
      && (log.crash.None? ==> |log.responses| + |log.noInference| == |frames|)
      && (log.crash.Some? ==>
            exists k :: FirstCrash(figiToIsin, frames, k, log.crash.value) && |log.responses| + |log.noInference| == k)
    decreases |frames|
  {
    if frames != [] {
      var init := frames[..|frames| - 1];
      var last := frames[|frames| - 1];
      PriceRunPartition(figiToIsin, init, start, checkAt, stampAt);
      var prev := PriceRun(figiToIsin, init, start, checkAt, stampAt);
      PriceStepCounts(figiToIsin, prev, last, |init|, checkAt, stampAt);
      if prev.crash.Some? {
        var k :| FirstCrash(figiToIsin, init, k, prev.crash.value) && |prev.responses| + |prev.noInference| == k;
        FirstCrashExtends(figiToIsin, frames, k, prev.crash.value);
      } else if PriceRoute(figiToIsin, last).Crash? {
        assert FirstCrash(figiToIsin, frames, |init|, PriceRoute(figiToIsin, last).failure) by {
          assert forall j :: 0 <= j < |init| ==> init[j] == frames[j];
        }
      } else {
        assert forall j :: 0 <= j < |init| ==> init[j] == frames[j];
      }
    }
  }

  /** One step writes one record or records a crash, and does nothing once crashed. */
  lemma PriceStepCounts(figiToIsin: map<string, string>, log: PriceLog, frame: Frame, k: nat,
                        checkAt: nat -> real, stampAt: nat -> real)
    ensures var next := PriceStep(figiToIsin, log, frame, k, checkAt, stampAt);
      && (log.crash.Some? ==> next == log)
      && (log.crash.None? && PriceRoute(figiToIsin, frame).Crash? ==>
            next.crash == Some(PriceRoute(figiToIsin, frame).failure)
            && |next.responses| + |next.noInference| == |log.responses| + |log.noInference|)
      && (log.crash.None? && !PriceRoute(figiToIsin, frame).Crash? ==>
            next.crash.None? && |next.responses| + |next.noInference| == |log.responses| + |log.noInference| + 1)
  {
  }

  /** Frame k is the first to crash, with the given failure. */
  predicate FirstCrash(figiToIsin: map<string, string>, frames: seq<Frame>, k: nat, f: Failure) {
    && k < |frames| && PriceRoute(figiToIsin, frames[k]) == Crash(f)
    && forall j :: 0 <= j < k ==> !PriceRoute(figiToIsin, frames[j]).Crash?
  }

  lemma FirstCrashExtends(figiToIsin: map<string, string>, frames: seq<Frame>, k: nat, f: Failure)
    requires frames != [] && FirstCrash(figiToIsin, frames[..|frames| - 1], k, f)
    ensures FirstCrash(figiToIsin, frames, k, f)
  {
    assert forall j :: 0 <= j <= k ==> frames[..|frames| - 1][j] == frames[j];
  }

  /**
   * Responses all carry 'inference', and no-inference records are values for which
   * `'inference' in` answered False.
   */
  lemma {:induction false} PriceRunRecords(figiToIsin: map<string, string>, frames: seq<Frame>, start: real,
                                           checkAt: nat -> real, stampAt: nat -> real)
    ensures var log := PriceRun(figiToIsin, frames, start, checkAt, stampAt);
      && (forall j :: j in log.responses ==> j.Obj? && "inference" in j.fields)
      && (forall j :: j in log.noInference ==> InferenceAbsent(j))
    decreases |frames|
  {
    if frames != [] {
      PriceRunRecords(figiToIsin, frames[..|frames| - 1], start, checkAt, stampAt);
      PriceRouteSpec(figiToIsin, frames[|frames| - 1]);
    }
  }

  /**
   * Token refreshes are more than 60 seconds apart on the script's clock: each send's check
   * reading exceeds the previous send's stamp (or the start) by more than the interval.
   */
  lemma {:induction false} PriceRunTokens(figiToIsin: map<string, string>, frames: seq<Frame>, start: real,
                                          checkAt: nat -> real, stampAt: nat -> real)
    ensures var log := PriceRun(figiToIsin, frames, start, checkAt, stampAt);
      && log.lastTokenTime == (if log.tokenSends == [] then start else stampAt(log.tokenSends[|log.tokenSends| - 1]))
      && (forall n :: 0 <= n < |log.tokenSends| ==> log.tokenSends[n] < |frames|)
      && (|log.tokenSends| > 0 ==> checkAt(log.tokenSends[0]) - start > TOKEN_REFRESH_INTERVAL)
      && (forall n :: 0 < n < |log.tokenSends| ==>
            && log.tokenSends[n - 1] < log.tokenSends[n]
            && checkAt(log.tokenSends[n]) - stampAt(log.tokenSends[n - 1]) > TOKEN_REFRESH_INTERVAL)
    decreases |frames|
  {
    if frames != [] {
      var init := frames[..|frames| - 1];
      PriceRunTokens(figiToIsin, init, start, checkAt, stampAt);
      var prev := PriceRun(figiToIsin, init, start, checkAt, stampAt);
      var log := PriceRun(figiToIsin, frames, start, checkAt, stampAt);
      assert log == PriceStep(figiToIsin, prev, frames[|frames| - 1], |init|, checkAt, stampAt);
      PriceStepTokens(figiToIsin, prev, frames[|frames| - 1], |init|, checkAt, stampAt);
      if log.tokenSends != prev.tokenSends {
        assert log.tokenSends == prev.tokenSends + [|init|];
        assert forall n :: 0 <= n < |prev.tokenSends| ==> log.tokenSends[n] == prev.tokenSends[n];
      }
    }
  }

  /** One step either leaves the token sends alone or sends one at frame k, past the interval. */
  lemma PriceStepTokens(figiToIsin: map<string, string>, log: PriceLog, frame: Frame, k: nat,
                        checkAt: nat -> real, stampAt: nat -> real)
    ensures var next := PriceStep(figiToIsin, log, frame, k, checkAt, stampAt);
      || (next.tokenSends == log.tokenSends && next.lastTokenTime == log.lastTokenTime)
      || (next.tokenSends == log.tokenSends + [k] && next.lastTokenTime == stampAt(k)
          && checkAt(k) - log.lastTokenTime > TOKEN_REFRESH_INTERVAL)
  {
  }

  // ---------------------------------------------------------------- subscribe_price_variations_and_trades.py

  datatype TradesOutcome = Reconnect(failure: Failure) | Response(record: Json) | Trade(record: Json) | NoInference(record: Json)

  /** `response_json.get('message') in ['forbidden', 'deactivated']`. */
  predicate Revoking(fields: map<string, Json>) {
    "message" in fields && (fields["message"] == Str("forbidden") || fields["message"] == Str("deactivated"))
  }

  /** Where one frame goes in the trades script; every exception leads to a reconnect. */
  function TradesRoute(figiToIsin: map<string, string>, frame: Frame): TradesOutcome {
    match frame
    case RecvFailed => Reconnect(ConnectionClosed)
    case NotJson => Reconnect(BadJson)
    case Parsed(v) =>
      if !v.Obj? then Reconnect(Raised(AttributeError))
      else if Revoking(v.fields) then Reconnect(Revoked)
      else if "inference" in v.fields then
        match AnnotatedInference(figiToIsin, v.fields["inference"])
        case Err(e) => Reconnect(Raised(e))
        case Ok(p) => Response(Obj(v.fields["inference" := p]))
      else if "trade" in v.fields then
        match AnnotatedTrades(figiToIsin, v.fields["trade"])
        case Err(e) => Reconnect(Raised(e))
        case Ok(p) => Trade(Obj(v.fields["trade" := p]))
      else NoInference(v)
  }

  /**
   * The routing rules in priority order: a revoking message reconnects whatever else it holds;
   * then 'inference' goes to the responses file and 'trade' to the trades file, each annotated;
   * a dictionary with neither goes unchanged to the no-inference file; anything that raises,
   * and any frame that is not a JSON dictionary, reconnects.
   */
  lemma TradesRouteSpec(figiToIsin: map<string, string>, frame: Frame)
    ensures frame.Parsed? && frame.value.Obj? && Revoking(frame.value.fields) ==> TradesRoute(figiToIsin, frame) == Reconnect(Revoked)
    ensures TradesRoute(figiToIsin, frame).Response? <==>
      && frame.Parsed? && frame.value.Obj? && !Revoking(frame.value.fields) && "inference" in frame.value.fields
      && AnnotatedInference(figiToIsin, frame.value.fields["inference"]).Ok?
    ensures TradesRoute(figiToIsin, frame).Response? ==>
      TradesRoute(figiToIsin, frame).record
        == Obj(frame.value.fields["inference" := AnnotatedInference(figiToIsin, frame.value.fields["inference"]).value])
    ensures TradesRoute(figiToIsin, frame).Trade? <==>
      && frame.Parsed? && frame.value.Obj? && !Revoking(frame.value.fields)
      && "inference" !in frame.value.fields && "trade" in frame.value.fields
      && AnnotatedTrades(figiToIsin, frame.value.fields["trade"]).Ok?
    ensures TradesRoute(figiToIsin, frame).Trade? ==>
      TradesRoute(figiToIsin, frame).record
        == Obj(frame.value.fields["trade" := AnnotatedTrades(figiToIsin, frame.value.fields["trade"]).value])
    ensures TradesRoute(figiToIsin, frame).NoInference? <==>
      && frame.Parsed? && frame.value.Obj? && !Revoking(frame.value.fields)
      && "inference" !in frame.value.fields && "trade" !in frame.value.fields
    ensures TradesRoute(figiToIsin, frame).NoInference? ==> TradesRoute(figiToIsin, frame).record == frame.value
    ensures !frame.Parsed? || !frame.value.Obj? ==> TradesRoute(figiToIsin, frame).Reconnect?
  {
  }

  datatype Socket = InferenceSocket | TradesSocket

  /** What the script sends: the two subscription messages and bare token refreshes. */
  datatype Outbound = InferenceSubscription(requests: seq<Request>) | TradeSubscription(trades: seq<TradeSub>) | TokenRefresh

  /** One message, on a socket of a given connection generation (0 for the first connections). */
  datatype Sent = Sent(socket: Socket, generation: nat, message: Outbound)

  /** The two subscriptions sent on fresh connections of generation g. */
  function Subscribe(g: nat, inference: seq<Request>, trades: seq<TradeSub>): seq<Sent> {
    [Sent(InferenceSocket, g, InferenceSubscription(inference)), Sent(TradesSocket, g, TradeSubscription(trades))]
  }

  /** After a reconnect: both subscriptions again, then one token on each socket. */
  function Resubscribe(g: nat, inference: seq<Request>, trades: seq<TradeSub>): seq<Sent> {
    Subscribe(g, inference, trades) + [Sent(InferenceSocket, g, TokenRefresh), Sent(TradesSocket, g, TokenRefresh)]
  }

  /** Everything sent by the loop after r reconnects. */
  function SentAfter(r: nat, inference: seq<Request>, trades: seq<TradeSub>): seq<Sent> {
    if r == 0 then Subscribe(0, inference, trades) else SentAfter(r - 1, inference, trades) + Resubscribe(r, inference, trades)
  }

  /** Where generation g's messages start in SentAfter. */
  function GenerationStart(g: nat): nat {
    if g == 0 then 0 else 4 * g - 2
  }

  /**
   * After r reconnects, 2 + 4·r messages have gone out; every generation begins with the
   * unchanged inference subscription and then the trade subscription, and every message belongs
   * to a generation already begun.
   */
  lemma SentAfterShape(r: nat, inference: seq<Request>, trades: seq<TradeSub>)
    ensures |SentAfter(r, inference, trades)| == 4 * r + 2
    ensures forall g :: 0 <= g <= r ==>
      && SentAfter(r, inference, trades)[GenerationStart(g)] == Sent(InferenceSocket, g, InferenceSubscription(inference))
      && SentAfter(r, inference, trades)[GenerationStart(g) + 1] == Sent(TradesSocket, g, TradeSubscription(trades))
    ensures forall i :: 0 <= i < |SentAfter(r, inference, trades)| ==>
      && SentAfter(r, inference, trades)[i].generation <= r
      && GenerationStart(SentAfter(r, inference, trades)[i].generation) <= i
  {
    SentAfterStarts(r, inference, trades);
    SentAfterGenerations(r, inference, trades);
  }

  lemma {:induction false} SentAfterLength(r: nat, inference: seq<Request>, trades: seq<TradeSub>)
    ensures |SentAfter(r, inference, trades)| == 4 * r + 2
    decreases r
  {
    if r > 0 {
      SentAfterLength(r - 1, inference, trades);
    }
  }

  lemma {:induction false} SentAfterStarts(r: nat, inference: seq<Request>, trades: seq<TradeSub>)
    ensures |SentAfter(r, inference, trades)| == 4 * r + 2
    ensures forall g :: 0 <= g <= r ==>
      && SentAfter(r, inference, trades)[GenerationStart(g)] == Sent(InferenceSocket, g, InferenceSubscription(inference))
      && SentAfter(r, inference, trades)[GenerationStart(g) + 1] == Sent(TradesSocket, g, TradeSubscription(trades))
    decreases r
  {
    SentAfterLength(r, inference, trades);
    if r > 0 {
      SentAfterStarts(r - 1, inference, trades);
      var prev := SentAfter(r - 1, inference, trades);
      var next := Resubscribe(r, inference, trades);
      var all := SentAfter(r, inference, trades);
      assert all == prev + next;
      forall g | 0 <= g <= r
        ensures all[GenerationStart(g)] == Sent(InferenceSocket, g, InferenceSubscription(inference))
        ensures all[GenerationStart(g) + 1] == Sent(TradesSocket, g, TradeSubscription(trades))
      {
        if g < r {
          assert all[GenerationStart(g)] == prev[GenerationStart(g)];
          assert all[GenerationStart(g) + 1] == prev[GenerationStart(g) + 1];
        } else {
          assert all[GenerationStart(g)] == next[0];
          assert all[GenerationStart(g) + 1] == next[1];
        }
      }
    }
  }

  lemma {:induction false} SentAfterGenerations(r: nat, inference: seq<Request>, trades: seq<TradeSub>)
    ensures forall i :: 0 <= i < |SentAfter(r, inference, trades)| ==>
      && SentAfter(r, inference, trades)[i].generation <= r
      && GenerationStart(SentAfter(r, inference, trades)[i].generation) <= i
    decreases r
  {
    if r > 0 {
      SentAfterGenerations(r - 1, inference, trades);
      SentAfterLength(r - 1, inference, trades);
      var prev := SentAfter(r - 1, inference, trades);
      var next := Resubscribe(r, inference, trades);
      var all := SentAfter(r, inference, trades);
      assert all == prev + next;
      forall i | 0 <= i < |all|
        ensures all[i].generation <= r && GenerationStart(all[i].generation) <= i
      {
        if i < |prev| {
          assert all[i] == prev[i];
        } else {
          assert all[i] == next[i - |prev|];
        }
      }
    }
  }

  /** The trades script's files, the reasons it reconnected, and what it sent. */
  datatype TradesLog = TradesLog(
    responses: seq<Json>,
    trades: seq<Json>,
    noInference: seq<Json>,
    reconnects: seq<Failure>,
    sent: seq<Sent>)

  function TradesStep(figiToIsin: map<string, string>, inference: seq<Request>, trades: seq<TradeSub>,
                      log: TradesLog, frame: Frame): TradesLog {
    match TradesRoute(figiToIsin, frame)
    case Reconnect(f) =>
      log.(reconnects := log.reconnects + [f],
           sent := log.sent + Resubscribe(|log.reconnects| + 1, inference, trades))
    case Response(j) => log.(responses := log.responses + [j])
    case Trade(j) => log.(trades := log.trades + [j])
    case NoInference(j) => log.(noInference := log.noInference + [j])
  }

  /** The trades script after its initial subscriptions and a finite script of frames. */
  function TradesRun(figiToIsin: map<string, string>, inference: seq<Request>, trades: seq<TradeSub>,
                     frames: seq<Frame>): TradesLog
    decreases |frames|
  {
    if frames == [] then TradesLog([], [], [], [], Subscribe(0, inference, trades))
    else TradesStep(figiToIsin, inference, trades, TradesRun(figiToIsin, inference, trades, frames[..|frames| - 1]),
                    frames[|frames| - 1])
  }

  /**
   * The trades script from its first two sends on: a `while True` loop in a `try`, where any
   * exception or a revoking message reconnects both sockets and sends both subscriptions and a
   * token on each. Connecting is taken to succeed (connect retries until it does).
   */
  method TradesListen(figiToIsin: map<string, string>, inference: seq<Request>, trades: seq<TradeSub>,
                      frames: seq<Frame>) returns (log: TradesLog)
    ensures log == TradesRun(figiToIsin, inference, trades, frames)
  {
    var sent := Subscribe(0, inference, trades);
    var generation := 0;
    var responses: seq<Json> := [];
    var tradeRecords: seq<Json> := [];
    var noInference: seq<Json> := [];
    var reconnects: seq<Failure> := [];
    var i := 0;
    while i < |frames|
      invariant 0 <= i <= |frames| && generation == |reconnects|
      invariant TradesRun(figiToIsin, inference, trades, frames[..i])
        == TradesLog(responses, tradeRecords, noInference, reconnects, sent)
    {
      assert frames[..i + 1][..i] == frames[..i];
      var outcome := TradesRouteFrame(figiToIsin, frames[i]);
      match outcome {
        case Reconnect(f) =>
          reconnects := reconnects + [f];
          generation := generation + 1;
          sent := sent + Subscribe(generation, inference, trades);
          sent := sent + [Sent(InferenceSocket, generation, TokenRefresh), Sent(TradesSocket, generation, TokenRefresh)];
        case Response(j) =>
          responses := responses + [j];
        case Trade(j) =>
          tradeRecords := tradeRecords + [j];
        case NoInference(j) =>
          noInference := noInference + [j];
      }
      i := i + 1;
    }
    assert frames[..i] == frames;
    log := TradesLog(responses, tradeRecords, noInference, reconnects, sent);
  }

  /** One pass of the `try` body up to the write: parse, test the message, annotate. */
  method TradesRouteFrame(figiToIsin: map<string, string>, frame: Frame) returns (outcome: TradesOutcome)
    ensures outcome == TradesRoute(figiToIsin, frame)
  {
    if frame.RecvFailed? {
      return Reconnect(ConnectionClosed);
    } else if frame.NotJson? {
      return Reconnect(BadJson);
    } else if !frame.value.Obj? {
      return Reconnect(Raised(AttributeError));
    }
    var fields := frame.value.fields;
    if Revoking(fields) {
      outcome := Reconnect(Revoked);
    } else if "inference" in fields {
      var annotated := AnnotateInference(figiToIsin, fields["inference"]);
      if annotated.Err? {
        outcome := Reconnect(Raised(annotated.error));
      } else {
        outcome := Response(Obj(fields["inference" := annotated.value]));
      }
    } else if "trade" in fields {
      var annotated := AnnotateTrades(figiToIsin, fields["trade"]);
      if annotated.Err? {
        outcome := Reconnect(Raised(annotated.error));
      } else {
        outcome := Trade(Obj(fields["trade" := annotated.value]));
      }
    } else {
      outcome := NoInference(frame.value);
    }
  }

  /**
   * Every frame lands in exactly one place: one of the three files or a reconnect. The files hold
   * only what the routing rules send there, and what was sent is the initial subscriptions plus
   * one resubscription per reconnect.
   */
  lemma {:induction false} TradesRunPartition(figiToIsin: map<string, string>, inference: seq<Request>,
                                              trades: seq<TradeSub>, frames: seq<Frame>)
    ensures var log := TradesRun(figiToIsin, inference, trades, frames);
      && |log.responses| + |log.trades| + |log.noInference| + |log.reconnects| == |frames|
      && log.sent == SentAfter(|log.reconnects|, inference, trades)
      && (forall j :: j in log.responses ==> j.Obj? && !Revoking(j.fields) && "inference" in j.fields)
      && (forall j :: j in log.trades ==> j.Obj? && !Revoking(j.fields) && "inference" !in j.fields && "trade" in j.fields)
      && (forall j :: j in log.noInference ==>
            j.Obj? && !Revoking(j.fields) && "inference" !in j.fields && "trade" !in j.fields)
    decreases |frames|
  {
    if frames != [] {
      TradesRunPartition(figiToIsin, inference, trades, frames[..|frames| - 1]);
      TradesRouteSpec(figiToIsin, frames[|frames| - 1]);
    }
  }
}
