/**
 * The second bulk evaluation script: every trading day from August 1st of a year to today at
 * 9:00 and 16:00 US/Eastern, one request per bond and valuation restricted to the bond's
 * lifetime, batches sized so that each carries at most 32000 timestamps, and a per-batch
 * fetch over a fresh websocket that counts the answers it receives and retries with back-off.
 *
 * The websocket is an oracle: `attempt(k)` is what the k-th connection of a batch does (it
 * fails to open or send, or delivers a sequence of frames and then times out or is closed).
 */
module Retriever {

  import opened Wrappers
  import opened Json
  import opened Arith
  import opened Calendar
  import opened Requests
  import opened Batching
  import opened Framing

  const BATCH_DELAY: real := 0.1
  const MAX_RETRIES: nat := 100
  const INITIAL_BACKOFF: real := 2.0
  const BACKOFF_FACTOR: real := 2.5
  const MAX_BACKOFF: real := 60.0
  const RECONNECT_BACKOFF: real := 3.0
  const MAX_RECONNECT_BACKOFF: real := 600.0
  /** The shortest pause after a batch. */
  const MIN_BATCH_PAUSE: real := 0.5
  /** Timestamps one batch may carry in total. */
  const TIMESTAMP_BUDGET: nat := 32_000

  // ---------------------------------------------------------------- requests

  /** A bond's settlement and maturity dates (midnight US/Eastern) as day numbers. */
  datatype BondInfo = BondInfo(settlementDay: int, maturityDay: int)

  /** `settlement_date <= t <= maturity_date`. */
  predicate InWindow(t: Stamp, b: BondInfo) {
    StampKey(Stamp(b.settlementDay, 0)) <= StampKey(t) <= StampKey(Stamp(b.maturityDay, 0))
  }

  /** The timestamps within the bond's lifetime, in their original order. */
  function Window(ts: seq<Stamp>, b: BondInfo): (r: seq<Stamp>)
    ensures |r| <= |ts|
    decreases |ts|
  {
    if ts == [] then [] else (if InWindow(ts[0], b) then [ts[0]] else []) + Window(ts[1..], b)
  }

  /** Strictly increasing in time. */
  predicate Increasing(ts: seq<Stamp>) {
    forall i, j :: 0 <= i < j < |ts| ==> StampKey(ts[i]) < StampKey(ts[j])
  }

  /** The window keeps exactly the timestamps of the bond's lifetime. */
  lemma {:induction false} WindowMembers(ts: seq<Stamp>, b: BondInfo)
    ensures forall t :: t in Window(ts, b) <==> t in ts && InWindow(t, b)
    decreases |ts|
  {
    if ts != [] {
      WindowMembers(ts[1..], b);
      assert ts == [ts[0]] + ts[1..];
    }
  }

  lemma IncreasingTail(ts: seq<Stamp>)
    requires ts != [] && Increasing(ts)
    ensures Increasing(ts[1..])
    ensures forall t :: t in ts[1..] ==> StampKey(ts[0]) < StampKey(t)
  {
    forall i, j | 0 <= i < j < |ts[1..]| ensures StampKey(ts[1..][i]) < StampKey(ts[1..][j]) {
      assert ts[1..][i] == ts[i + 1] && ts[1..][j] == ts[j + 1];
    }
    forall t | t in ts[1..] ensures StampKey(ts[0]) < StampKey(t) {
      var m :| 0 <= m < |ts[1..]| && ts[1..][m] == t;
      assert ts[1..][m] == ts[m + 1];
    }
  }

  /** The window of increasing timestamps is increasing. */
  lemma {:induction false} WindowOrdered(ts: seq<Stamp>, b: BondInfo)
    requires Increasing(ts)
    ensures Increasing(Window(ts, b))
    decreases |ts|
  {
    if ts != [] {
      IncreasingTail(ts);
      WindowOrdered(ts[1..], b);
      if InWindow(ts[0], b) {
        WindowMembers(ts[1..], b);
        var w, rest := Window(ts, b), Window(ts[1..], b);
        assert w == [ts[0]] + rest;
        forall i, j | 0 <= i < j < |w| ensures StampKey(w[i]) < StampKey(w[j]) {
          assert w[j] == rest[j - 1] && rest[j - 1] in rest;
          if i > 0 {
            assert w[i] == rest[i - 1];
          }
        }
      }
    }
  }

  /**
   * For the generated evaluation times (strictly between midnights), a time is in the window
   * exactly when its day is from the settlement day up to, and excluding, the maturity day.
   */
  lemma WindowDays(t: Stamp, b: BondInfo)
    requires 0 < t.hour < 24
    ensures InWindow(t, b) <==> b.settlementDay <= t.day < b.maturityDay
  {
  }

  /** `format_timestamp_for_api` of each time, through the UTC conversion `utcOf`. */
  function Formatted(ts: seq<Stamp>, utcOf: Stamp -> DateTime): (r: seq<string>)
    ensures |r| == |ts|
  {
    seq(|ts|, k requires 0 <= k < |ts| => FormatTimestampForApi(utcOf(ts[k])))
  }

  /** The eight (label, side, ATS) variants asked for every bond, in the order they are listed. */
  const VARIANTS: seq<(Label, Side, Ats)> := [
    (Spread, Bid, N), (Spread, Offer, N), (Spread, Bid, Y), (Spread, Offer, Y),
    (Price, Bid, N), (Price, Offer, N), (Price, Bid, Y), (Price, Offer, Y)]

  /** The bulk request of one bond and variant: quantity 1M, no subscription, the given times. */
  function VariantRequest(figi: string, c: nat, stamps: seq<string>): Request
    requires c < |VARIANTS|
  {
    Request(VARIANTS[c].0, figi, BULK_QUANTITY, VARIANTS[c].1, VARIANTS[c].2, Some(stamps), false)
  }

  function FigiRequests(figi: string, stamps: seq<string>): (r: seq<Request>)
    ensures |r| == 8
  {
    seq(8, c requires 0 <= c < 8 => VariantRequest(figi, c, stamps))
  }

  /** The formatted times of one bond's lifetime. */
  function BondStamps(ts: seq<Stamp>, b: BondInfo, utcOf: Stamp -> DateTime): seq<string> {
    Formatted(Window(ts, b), utcOf)
  }

  /**
   * `get_inference_requests`: eight requests per bond, bond by bond. A bond without bond
   * information is a KeyError.
   */
  function InferenceRequests(figis: seq<string>, ts: seq<Stamp>, info: map<string, BondInfo>, utcOf: Stamp -> DateTime)
    : (r: Result<seq<Request>, string>)
    ensures r.Ok? <==> forall k :: 0 <= k < |figis| ==> figis[k] in info
    ensures r.Ok? ==> |r.value| == 8 * |figis|
    decreases |figis|
  {
    if figis == [] then Ok([])
    else if figis[0] !in info then Err("KeyError")
    else
      var rest := InferenceRequests(figis[1..], ts, info, utcOf);
      assert forall k :: 1 <= k < |figis| ==> figis[k] == figis[1..][k - 1];
      if rest.Err? then rest
      else Ok(FigiRequests(figis[0], BondStamps(ts, info[figis[0]], utcOf)) + rest.value)
  }

  /** Request `8 * f + c` is variant `c` of bond `f`, carrying that bond's lifetime times. */
  lemma {:induction false} InferenceRequestAt(
    figis: seq<string>, ts: seq<Stamp>, info: map<string, BondInfo>, utcOf: Stamp -> DateTime, f: nat, c: nat)
    requires InferenceRequests(figis, ts, info, utcOf).Ok?
    requires f < |figis| && c < 8
    ensures figis[f] in info
    ensures InferenceRequests(figis, ts, info, utcOf).value[8 * f + c]
      == VariantRequest(figis[f], c, BondStamps(ts, info[figis[f]], utcOf))
    decreases f
  {
    var rest := InferenceRequests(figis[1..], ts, info, utcOf);
    if f > 0 {
      InferenceRequestAt(figis[1..], ts, info, utcOf, f - 1, c);
      assert figis[1..][f - 1] == figis[f];
      assert 8 * f + c == 8 + (8 * (f - 1) + c);
    }
  }

  /** Every request carries a list of at most as many times as were generated. */
  lemma {:induction false} RequestsCarryWindows(
    figis: seq<string>, ts: seq<Stamp>, info: map<string, BondInfo>, utcOf: Stamp -> DateTime)
    requires InferenceRequests(figis, ts, info, utcOf).Ok?
    ensures forall q :: q in InferenceRequests(figis, ts, info, utcOf).value ==>
      q.timestamp.Some? && |q.timestamp.value| <= |ts|
    decreases |figis|
  {
    if figis != [] {
      RequestsCarryWindows(figis[1..], ts, info, utcOf);
    }
  }

  // ---------------------------------------------------------------- batches and tasks

  /**
   * `int(32_000 / timestamp_count)`, then `range(0, n, batch_size)`: no timestamps is a
   * ZeroDivisionError and a size of zero (more than 32000 timestamps) a ValueError. For these
   * operands the float quotient truncates to the integer quotient.
   */
  function BatchSize(timestampCount: nat): (r: Result<nat, string>)
    ensures r.Ok? <==> 0 < timestampCount <= TIMESTAMP_BUDGET
    ensures r.Ok? ==> r.value > 0
  {
    if timestampCount == 0 then Err("ZeroDivisionError")
    else
      var size: nat := TIMESTAMP_BUDGET / timestampCount;
      if size == 0 then Err("ValueError: range() arg 3 must not be zero") else Ok(size)
  }

  /** The size is the largest number of full-length requests that fit the budget. */
  lemma BatchSizeBudget(timestampCount: nat)
    requires BatchSize(timestampCount).Ok?
    ensures BatchSize(timestampCount).value * timestampCount <= TIMESTAMP_BUDGET
    ensures TIMESTAMP_BUDGET < (BatchSize(timestampCount).value + 1) * timestampCount
  {
    var q := TIMESTAMP_BUDGET / timestampCount;
    assert TIMESTAMP_BUDGET == q * timestampCount + TIMESTAMP_BUDGET % timestampCount;
    assert (q + 1) * timestampCount == q * timestampCount + timestampCount;
  }

  /** `expected_inferences`: the number of timestamps of the batch; a request without a list is a TypeError. */
  function Expected(batch: seq<Request>): Option<nat>
    decreases |batch|
  {
    if batch == [] then Some(0)
    else
      var init := Expected(batch[..|batch| - 1]);
      match batch[|batch| - 1].timestamp
      case None => None
      case Some(ts) => if init.None? then None else Some(init.value + |ts|)
  }

  /** The count is defined exactly when every request of the batch carries a timestamp list. */
  lemma {:induction false} ExpectedDefined(batch: seq<Request>)
    ensures Expected(batch).Some? <==> forall k :: 0 <= k < |batch| ==> batch[k].timestamp.Some?
    decreases |batch|
  {
    if batch != [] {
      var init := batch[..|batch| - 1];
      ExpectedDefined(init);
      assert forall k :: 0 <= k < |init| ==> batch[k] == init[k];
    }
  }

  lemma MulSucc(a: nat, b: nat)
    ensures (a + 1) * b == a * b + b
  {
  }

  /** With at most `bound` timestamps per request, the count is at most `|batch| * bound`. */
  lemma {:induction false} ExpectedBound(batch: seq<Request>, bound: nat)
    requires forall q :: q in batch ==> q.timestamp.Some? && |q.timestamp.value| <= bound
    ensures Expected(batch).Some? && Expected(batch).value <= |batch| * bound
    decreases |batch|
  {
    if batch != [] {
      var init := batch[..|batch| - 1];
      assert forall q :: q in init ==> q in batch;
      assert batch[|batch| - 1] in batch;
      ExpectedBound(init, bound);
      MulSucc(|init|, bound);
    }
  }

  /** The loop over the batch that adds up the lengths of the timestamp lists. */
  method ExpectedInferences(batch: seq<Request>) returns (r: Option<nat>)
    ensures r == Expected(batch)
  {
    var total: nat := 0;
    var i := 0;
    while i < |batch|
      invariant 0 <= i <= |batch|
      invariant Expected(batch[..i]) == Some(total)
    {
      assert batch[..i + 1][..i] == batch[..i];
      match batch[i].timestamp {
        case None =>
          ExpectedDefined(batch);
          return None;
        case Some(ts) =>
          total := total + |ts|;
      }
      i := i + 1;
    }
    assert batch[..|batch|] == batch;
    r := Some(total);
  }

  /** `batches[idx]` with Python's negative indices; an index outside is an IndexError. */
  function PyIndex<T>(s: seq<T>, i: int): (r: Option<T>)
    ensures r.Some? <==> -|s| <= i < |s|
    ensures 0 <= i < |s| ==> r == Some(s[i])
    ensures -|s| <= i < 0 ==> r == Some(s[|s| + i])
  {
    if 0 <= i < |s| then Some(s[i]) else if -|s| <= i < 0 then Some(s[|s| + i]) else None
  }

  /** `range(start, n)`. */
  function TaskIndices(start: int, n: nat): (r: seq<int>)
    ensures |r| == if start < n then n - start else 0
    ensures forall k :: 0 <= k < |r| ==> r[k] == start + k
    decreases n - start
  {
    if start >= n then [] else [start] + TaskIndices(start + 1, n)
  }

  /** From a non-negative start, the tasks visit each batch from `start` on once, in order. */
  lemma TasksFromStart<T>(batches: seq<T>, start: int)
    requires 0 <= start <= |batches|
    ensures forall k :: 0 <= k < |TaskIndices(start, |batches|)| ==>
      PyIndex(batches, TaskIndices(start, |batches|)[k]) == Some(batches[start..][k])
  {
  }

  /** A negative start `-m` visits the last `m` batches twice: once by negative index, once by position. */
  lemma NegativeStartRepeats<T>(batches: seq<T>, start: int)
    requires -|batches| <= start < 0
    ensures var tasks := TaskIndices(start, |batches|);
      tasks[0] == start && tasks[|batches|] == |batches| + start
      && PyIndex(batches, tasks[0]) == PyIndex(batches, tasks[|batches|])
  {
  }

  // ---------------------------------------------------------------- one attempt

  /** What one received frame does: counts answers (keeping an `inference` payload), or raises. */
  datatype Effect = Accounts(count: nat, payload: Option<Json>) | Raises

  /** How many inferences an `inference` payload counts for: its length if a list, else one. */
  function InferenceCount(v: Json): nat {
    if IsList(v) then |v.items| else 1
  }

  /**
   * The branches of the receive loop: an unparseable frame raises; an `inference` payload is
   * kept and counted; an "insufficient data" message counts `len(data)` (one without `data`,
   * a TypeError when `data` has no length); an `error` that mentions "throttled" in any case
   * raises, as does an `error` that is not a string; anything else counts nothing. A frame that
   * parses to something other than an object meets Python's `in` first: a number, boolean or
   * null raises there, and a list or string only gets past the three tests by not containing
   * any of the three keys, since subscripting it with one raises.
   */
  function EffectOf(m: Inbound): Effect {
    match m
    case Unparseable => Raises
    case Parsed(v) =>
      if !v.Obj? then
        if PyIn("inference", v) == Ok(false) && PyIn("message", v) == Ok(false) && PyIn("error", v) == Ok(false)
        then Accounts(0, None)
        else Raises
      else
        var f := v.fields;
        if "inference" in f then Accounts(InferenceCount(f["inference"]), Some(f["inference"]))
        else if "message" in f && f["message"] == Str("insufficient data") then
          if "data" in f then
            match PyLen(f["data"])
            case Some(n) => Accounts(n, None)
            case None => Raises
          else Accounts(1, None)
        else if "error" in f then
          if !f["error"].Str? then Raises
          else if Contains(Lower(f["error"].s), "throttled") then Raises
          else Accounts(0, None)
        else Accounts(0, None)
  }

  /** A frame that parsed to a JSON object. */
  predicate IsObject(m: Inbound) {
    m.Parsed? && m.value.Obj?
  }

  /**
   * Only `inference` objects contribute payloads, and they are counted by their length; a
   * throttling error raises, whatever the case of "throttled"; so does an unparseable frame,
   * an "insufficient data" message whose `data` has no length, and a frame that parses to a
   * number, a boolean or null. A list or a string is passed over, counting nothing, exactly when
   * it holds none of the keys "inference", "message" and "error"; otherwise it raises.
   */
  lemma EffectOfSpec(m: Inbound)
    ensures EffectOf(m).Accounts? && EffectOf(m).payload.Some? <==> IsObject(m) && "inference" in m.value.fields
    ensures IsObject(m) && "inference" in m.value.fields ==>
      EffectOf(m) == Accounts(InferenceCount(m.value.fields["inference"]), Some(m.value.fields["inference"]))
    ensures (IsObject(m) && "inference" !in m.value.fields && "message" !in m.value.fields && "error" in m.value.fields
      && m.value.fields["error"].Str? && Contains(Lower(m.value.fields["error"].s), "throttled")) ==> EffectOf(m) == Raises
    ensures m.Unparseable? ==> EffectOf(m) == Raises
    ensures (IsObject(m) && "inference" !in m.value.fields && "message" in m.value.fields
      && m.value.fields["message"] == Str("insufficient data") && "data" in m.value.fields
      && !(m.value.fields["data"].Arr? || m.value.fields["data"].Str? || m.value.fields["data"].Obj?)) ==> EffectOf(m) == Raises
    ensures m.Parsed? && (m.value.Null? || m.value.Bool? || m.value.Num?) ==> EffectOf(m) == Raises
    ensures m.Parsed? && m.value.Arr? ==>
      (EffectOf(m) == Accounts(0, None) <==> Str("inference") !in m.value.items && Str("message") !in m.value.items && Str("error") !in m.value.items)
      && (EffectOf(m) == Accounts(0, None) || EffectOf(m) == Raises)
    ensures m.Parsed? && m.value.Str? ==>
      (EffectOf(m) == Accounts(0, None) <==> !Contains(m.value.s, "inference") && !Contains(m.value.s, "message") && !Contains(m.value.s, "error"))
      && (EffectOf(m) == Accounts(0, None) || EffectOf(m) == Raises)
  {
  }

  /** The effects of a connection's frames, in arrival order. */
  function Effects(ms: seq<Inbound>): (es: seq<Effect>)
    ensures |es| == |ms| && forall k :: 0 <= k < |ms| ==> es[k] == EffectOf(ms[k])
  {
    seq(|ms|, k requires 0 <= k < |ms| => EffectOf(ms[k]))
  }

  function CountOf(e: Effect): nat {
    match e
    case Accounts(n, _) => n
    case Raises => 0
  }

  function PayloadOf(e: Effect): seq<Json> {
    match e
    case Accounts(_, Some(p)) => [p]
    case _ => []
  }

  /** The answers the frames account for. */
  function Counted(es: seq<Effect>): nat
    decreases |es|
  {
    if es == [] then 0 else CountOf(es[0]) + Counted(es[1..])
  }

  /** The `inference` payloads of the frames, in arrival order. */
  function Payloads(es: seq<Effect>): seq<Json>
    decreases |es|
  {
    if es == [] then [] else PayloadOf(es[0]) + Payloads(es[1..])
  }

  ghost predicate NoRaise(es: seq<Effect>) {
    forall k :: 0 <= k < |es| ==> es[k].Accounts?
  }

  /** After none of the first `j` frames (j >= 1) had the count reached `expected`. */
  ghost predicate Short(expected: nat, accounted: nat, es: seq<Effect>, j: nat)
    requires j <= |es|
  {
    forall i :: 1 <= i <= j ==> accounted + Counted(es[..i]) < expected
  }

  /** How reading the frames ended: the count was reached at frame `used`, frame `used` raised, or they ran out. */
  datatype Scan = Reached(used: nat) | Broke(used: nat) | Exhausted

  function Shift(s: Scan, i: nat): Scan {
    match s
    case Reached(u) => Reached(u + i)
    case Broke(u) => Broke(u + i)
    case Exhausted => Exhausted
  }

  function Used(s: Scan, n: nat): nat {
    if s.Exhausted? then n else s.used
  }

  /** The receive loop's outcome, checking the count after every frame. */
  function ScanFrom(expected: nat, accounted: nat, es: seq<Effect>): (r: Scan)
    ensures !r.Exhausted? ==> 1 <= r.used <= |es|
    decreases |es|
  {
    if es == [] then Exhausted
    else match es[0]
      case Raises => Broke(1)
      case Accounts(n, _) =>
        if accounted + n >= expected then Reached(1)
        else Shift(ScanFrom(expected, accounted + n, es[1..]), 1)
  }

  lemma CountedPrefix(es: seq<Effect>, i: nat)
    requires 1 <= i <= |es|
    ensures Counted(es[..i]) == CountOf(es[0]) + Counted(es[1..][..i - 1])
  {
    assert es[..i][1..] == es[1..][..i - 1];
  }

  /** Frame `i` of `es` (i >= 1) is frame `i - 1` of its tail. */
  lemma TailPrefixes(es: seq<Effect>)
    requires es != []
    ensures forall i :: 1 <= i <= |es| ==> Counted(es[..i]) == CountOf(es[0]) + Counted(es[1..][..i - 1])
  {
    forall i | 1 <= i <= |es| ensures Counted(es[..i]) == CountOf(es[0]) + Counted(es[1..][..i - 1]) {
      CountedPrefix(es, i);
    }
  }

  /**
   * Reaching the count at frame `u`: every frame up to `u` counted, the total reached
   * `expected` there and at no earlier frame.
   */
  lemma {:induction false} ScanReached(expected: nat, accounted: nat, es: seq<Effect>)
    requires ScanFrom(expected, accounted, es).Reached?
    ensures var u := ScanFrom(expected, accounted, es).used;
      NoRaise(es[..u]) && accounted + Counted(es[..u]) >= expected && Short(expected, accounted, es, u - 1)
    decreases |es|
  {
    var u := ScanFrom(expected, accounted, es).used;
    var n := CountOf(es[0]);
    if u == 1 {
      CountedPrefix(es, 1);
    } else {
      var t := es[1..];
      ScanReached(expected, accounted + n, t);
      TailPrefixes(es);
      forall k | 0 <= k < u ensures es[..u][k].Accounts? {
        if k > 0 { assert es[..u][k] == t[..u - 1][k - 1]; }
      }
    }
  }

  /** Raising at frame `u`: every earlier frame counted, frame `u` raised, and the total never reached `expected`. */
  lemma {:induction false} ScanBroke(expected: nat, accounted: nat, es: seq<Effect>)
    requires ScanFrom(expected, accounted, es).Broke?
    ensures var u := ScanFrom(expected, accounted, es).used;
      NoRaise(es[..u - 1]) && es[u - 1].Raises? && Short(expected, accounted, es, u - 1)
    decreases |es|
  {
    var u := ScanFrom(expected, accounted, es).used;
    var n := CountOf(es[0]);
    if u > 1 {
      var t := es[1..];
      ScanBroke(expected, accounted + n, t);
      TailPrefixes(es);
      var before, tailBefore := es[..u - 1], t[..u - 2];
      forall k | 0 <= k < |before| ensures before[k].Accounts? {
        if k > 0 { assert before[k] == tailBefore[k - 1]; }
      }
      assert es[u - 1] == t[u - 2];
    }
  }

  /** Running out of frames: none raised and the total stayed short of `expected` throughout. */
  lemma {:induction false} ScanExhausted(expected: nat, accounted: nat, es: seq<Effect>)
    requires ScanFrom(expected, accounted, es).Exhausted?
    ensures NoRaise(es) && Short(expected, accounted, es, |es|)
    decreases |es|
  {
    if es != [] {
      var n := CountOf(es[0]);
      var t := es[1..];
      ScanExhausted(expected, accounted + n, t);
      TailPrefixes(es);
      assert t[..|t|] == t;
      forall k | 0 <= k < |es| ensures es[k].Accounts? {
        if k > 0 { assert es[k] == t[k - 1]; }
      }
    }
  }

  function OptionList<T>(o: Option<T>): seq<T> {
    if o.Some? then [o.value] else []
  }

  /** The receive loop's outcome from frame `i` on, with frame numbers counted from the start. */
  function ScanAt(expected: nat, accounted: nat, es: seq<Effect>, i: nat): (r: Scan)
    requires i <= |es|
    ensures !r.Exhausted? ==> i < r.used <= |es|
    decreases |es| - i
  {
    if i == |es| then Exhausted
    else match es[i]
      case Raises => Broke(i + 1)
      case Accounts(n, _) => if accounted + n >= expected then Reached(i + 1) else ScanAt(expected, accounted + n, es, i + 1)
  }

  /** The payloads the receive loop has kept once it is done, having kept `kept` before frame `i`. */
  function KeptAt(expected: nat, accounted: nat, es: seq<Effect>, i: nat, kept: seq<Json>): seq<Json>
    requires i <= |es|
    decreases |es| - i
  {
    if i == |es| then kept
    else match es[i]
      case Raises => kept
      case Accounts(n, p) =>
        if accounted + n >= expected then kept + OptionList(p)
        else KeptAt(expected, accounted + n, es, i + 1, kept + OptionList(p))
  }

  lemma {:induction false} ScanAtFrom(expected: nat, accounted: nat, es: seq<Effect>, i: nat)
    requires i <= |es|
    ensures ScanAt(expected, accounted, es, i) == Shift(ScanFrom(expected, accounted, es[i..]), i)
    decreases |es| - i
  {
    if i < |es| {
      assert es[i..][0] == es[i] && es[i..][1..] == es[i + 1..];
      if es[i].Accounts? && accounted + es[i].count < expected {
        ScanAtFrom(expected, accounted + es[i].count, es, i + 1);
      }
    }
  }

  lemma PayloadOfList(e: Effect)
    requires e.Accounts?
    ensures PayloadOf(e) == OptionList(e.payload)
  {
  }

  lemma PayloadsCons(es: seq<Effect>, i: nat, u: nat)
    requires i < u <= |es|
    ensures Payloads(es[i..u]) == PayloadOf(es[i]) + Payloads(es[i + 1..u])
  {
    assert es[i..u][0] == es[i] && es[i..u][1..] == es[i + 1..u];
  }

  /** The loop keeps, after what it had, the payloads of the frames from `i` up to where it stops. */
  lemma {:induction false} KeptAtPayloads(expected: nat, accounted: nat, es: seq<Effect>, i: nat, kept: seq<Json>)
    requires i <= |es|
    ensures KeptAt(expected, accounted, es, i, kept)
      == kept + Payloads(es[i..Used(ScanAt(expected, accounted, es, i), |es|)])
    decreases |es| - i
  {
    var u := Used(ScanAt(expected, accounted, es, i), |es|);
    if i == |es| {
      assert kept + [] == kept;
    } else {
      PayloadsCons(es, i, u);
      if es[i].Raises? {
        assert kept + [] == kept;
      } else {
        var n, p := es[i].count, es[i].payload;
        PayloadOfList(es[i]);
        if accounted + n >= expected {
          assert es[i + 1..u] == [];
          assert OptionList(p) + [] == OptionList(p);
        } else {
          KeptAtPayloads(expected, accounted + n, es, i + 1, kept + OptionList(p));
          assert kept + OptionList(p) + Payloads(es[i + 1..u]) == kept + (OptionList(p) + Payloads(es[i + 1..u]));
        }
      }
    }
  }

  /** Reading from the first frame is the scan of all frames, keeping the payloads of those read. */
  lemma ReadSpec(expected: nat, es: seq<Effect>)
    ensures ScanAt(expected, 0, es, 0) == ScanFrom(expected, 0, es)
    ensures KeptAt(expected, 0, es, 0, []) == Payloads(es[..Used(ScanFrom(expected, 0, es), |es|)])
  {
    ScanAtFrom(expected, 0, es, 0);
    assert es[0..] == es;
    KeptAtPayloads(expected, 0, es, 0, []);
    assert es[0..Used(ScanFrom(expected, 0, es), |es|)] == es[..Used(ScanFrom(expected, 0, es), |es|)];
  }

  /**
   * The `while True` receive loop over the frames of one connection: stop at the frame that
   * completes the count or raises, keeping every `inference` payload read.
   */
  method ReadResponses(expected: nat, messages: seq<Inbound>) returns (scan: Scan, payloads: seq<Json>)
    ensures scan == ScanAt(expected, 0, Effects(messages), 0)
    ensures payloads == KeptAt(expected, 0, Effects(messages), 0, [])
  {
    var i := 0;
    var accounted: nat := 0;
    payloads := [];
    while i < |messages|
      invariant 0 <= i <= |messages|
      invariant ScanAt(expected, 0, Effects(messages), 0) == ScanAt(expected, accounted, Effects(messages), i)
      invariant KeptAt(expected, 0, Effects(messages), 0, []) == KeptAt(expected, accounted, Effects(messages), i, payloads)
    {
      assert Effects(messages)[i] == EffectOf(messages[i]);
      match EffectOf(messages[i]) {
        case Raises =>
          scan := Broke(i + 1);
          return;
        case Accounts(n, p) =>
          if p.Some? {
            payloads := payloads + [p.value];
          } else {
            assert payloads + OptionList(p) == payloads;
          }
          accounted := accounted + n;
          if accounted >= expected {
            scan := Reached(i + 1);
            return;
          }
      }
      i := i + 1;
    }
    scan := Exhausted;
  }

  /** How the frames of a connection stopped coming: 80 s of silence, or the server closed it. */
  datatype Ending = TimedOut | ConnectionClosed

  /**
   * One connection of a batch: it could not be opened or the request could not be sent
   * (`closed` when that was a ConnectionClosed), or it delivered frames and then ended.
   */
  datatype AttemptScript = NoExchange(closed: bool) | Exchange(messages: seq<Inbound>, ending: Ending)

  datatype Outcome = Succeeded | Failed(closed: bool)

  /** Reaching the count or a timeout ends the batch; a raising frame or a close is retried. */
  function OutcomeOf(expected: nat, a: AttemptScript): Outcome {
    match a
    case NoExchange(c) => Failed(c)
    case Exchange(ms, end) =>
      match ScanFrom(expected, 0, Effects(ms))
      case Reached(_) => Succeeded
      case Broke(_) => Failed(false)
      case Exhausted => if end == TimedOut then Succeeded else Failed(true)
  }

  /** The payloads an attempt adds to the batch's `inferences` list. */
  function KeptOf(expected: nat, a: AttemptScript): seq<Json> {
    match a
    case NoExchange(_) => []
    case Exchange(ms, _) => Payloads(Effects(ms)[..Used(ScanFrom(expected, 0, Effects(ms)), |ms|)])
  }

  method RunAttempt(expected: nat, a: AttemptScript) returns (outcome: Outcome, kept: seq<Json>)
    ensures outcome == OutcomeOf(expected, a)
    ensures kept == KeptOf(expected, a)
  {
    match a {
      case NoExchange(c) =>
        outcome, kept := Failed(c), [];
      case Exchange(ms, end) =>
        var scan;
        scan, kept := ReadResponses(expected, ms);
        ReadSpec(expected, Effects(ms));
        if scan.Reached? {
          outcome := Succeeded;
        } else if scan.Broke? {
          outcome := Failed(false);
        } else if end == TimedOut {
          outcome := Succeeded;
        } else {
          outcome := Failed(true);
        }
    }
  }

  // ---------------------------------------------------------------- the retry loop

  /** What one attempt hands back to the retry loop: how it ended and the payloads it kept. */
  datatype Report = Report(outcome: Outcome, kept: seq<Json>)

  function ReportOf(expected: nat, a: AttemptScript): Report {
    Report(OutcomeOf(expected, a), KeptOf(expected, a))
  }

  /** The reports the first hundred connections of a batch expecting `expected` answers would give. */
  function Reports(expected: nat, attempt: nat -> AttemptScript): (r: seq<Report>)
    ensures |r| == MAX_RETRIES
  {
    seq(MAX_RETRIES, k requires 0 <= k < MAX_RETRIES => ReportOf(expected, attempt(k)))
  }

  /** The payloads kept over the first `n` attempts (the list is not reset between attempts). */
  function KeptUpTo(reports: seq<Report>, n: nat): seq<Json>
    requires n <= |reports|
    decreases n
  {
    if n == 0 then [] else KeptUpTo(reports, n - 1) + reports[n - 1].kept
  }

  /** The first attempt from `from` on that succeeds. */
  function FirstSuccess(reports: seq<Report>, from: nat): Option<nat>
    decreases |reports| - from
  {
    if from >= |reports| then None
    else if reports[from].outcome == Succeeded then Some(from)
    else FirstSuccess(reports, from + 1)
  }

  lemma {:induction false} FirstSuccessSpec(reports: seq<Report>, from: nat)
    ensures FirstSuccess(reports, from).Some? ==>
      var k := FirstSuccess(reports, from).value;
      from <= k < |reports| && reports[k].outcome == Succeeded
      && forall j :: from <= j < k ==> reports[j].outcome.Failed?
    ensures FirstSuccess(reports, from).None? ==>
      forall j :: from <= j < |reports| ==> reports[j].outcome.Failed?
    decreases |reports| - from
  {
    if from < |reports| && reports[from].outcome != Succeeded {
      FirstSuccessSpec(reports, from + 1);
    }
  }

  /** The payloads kept up to and including the first successful attempt, or the give-up. */
  function AttemptsResult(reports: seq<Report>): Result<seq<Json>, string> {
    match FirstSuccess(reports, 0)
    case None => Err("Max retries exceeded")
    case Some(k) =>
      FirstSuccessSpec(reports, 0);
      Ok(KeptUpTo(reports, k + 1))
  }

  /**
   * `retrieve_batch`: the answers of the first successful attempt, flattened together with
   * everything kept by the failed attempts before it; the hundredth failure gives up.
   */
  function BatchResult(batch: seq<Request>, attempt: nat -> AttemptScript): Result<seq<Json>, string> {
    match Expected(batch)
    case None => Err("TypeError")
    case Some(e) =>
      match AttemptsResult(Reports(e, attempt))
      case Err(m) => Err(m)
      case Ok(kept) => Ok(FlattenPayloads(kept))
  }

  /** The `backoff` variable after `k` failures: 2.0, multiplied by 2.5 at each failure. */
  function BackoffValue(k: nat): real
    decreases k
  {
    if k == 0 then INITIAL_BACKOFF else BackoffValue(k - 1) * BACKOFF_FACTOR
  }

  lemma {:induction false} BackoffValueClosedForm(k: nat)
    ensures BackoffValue(k) == INITIAL_BACKOFF * Pow(BACKOFF_FACTOR, k)
    decreases k
  {
    if k > 0 {
      BackoffValueClosedForm(k - 1);
    }
  }

  /** The k-th failure's back-off sleep (k >= 1): `min(backoff, 60)`, that is `min(2.0 * 2.5 ** (k - 1), 60)`. */
  function BackoffSleep(k: nat): real
    requires k >= 1
  {
    MinReal(BackoffValue(k - 1), MAX_BACKOFF)
  }

  /** The extra sleep after the k-th failure when it was a ConnectionClosed: `min(3.0 * 2 ** k, 600)`. */
  function ReconnectSleep(k: nat): real {
    MinReal(RECONNECT_BACKOFF * Pow(2.0, k), MAX_RECONNECT_BACKOFF)
  }

  function FailureSleeps(k: nat, o: Outcome): seq<real>
    requires k >= 1
  {
    [BackoffSleep(k)] + (if o.Failed? && o.closed then [ReconnectSleep(k)] else [])
  }

  /** The sleeps taken after the first `n` failed attempts. */
  function SleepsAfter(reports: seq<Report>, n: nat): seq<real>
    requires n <= |reports|
    decreases n
  {
    if n == 0 then [] else SleepsAfter(reports, n - 1) + FailureSleeps(n, reports[n - 1].outcome)
  }

  /**
   * The `while retry_count < MAX_RETRIES` loop for a batch expecting `e` answers: `tries`
   * connections are made, the result is the first success's (or the give-up after the
   * hundredth failure), and the back-off sleeps are taken after each failure but the last.
   */
  method RetryLoop(e: nat, attempt: nat -> AttemptScript)
    returns (r: Result<seq<Json>, string>, tries: nat, sleeps: seq<real>)
    ensures r == AttemptsResult(Reports(e, attempt))
    ensures 1 <= tries <= MAX_RETRIES
    ensures r.Ok? ==> FirstSuccess(Reports(e, attempt), 0) == Some(tries - 1)
    ensures r.Err? ==> tries == MAX_RETRIES
    ensures sleeps == SleepsAfter(Reports(e, attempt), tries - 1)
  {
    ghost var reports := Reports(e, attempt);
    ghost var first := FirstSuccess(reports, 0);
    var kept: seq<Json> := [];
    var retryCount: nat := 0;
    var backoff := INITIAL_BACKOFF;
    sleeps := [];
    // The guard `retry_count < MAX_RETRIES` never fails, since the hundredth failure raises.
    while true
      invariant retryCount < MAX_RETRIES
      invariant backoff == BackoffValue(retryCount)
      invariant kept == KeptUpTo(reports, retryCount)
      invariant sleeps == SleepsAfter(reports, retryCount)
      invariant first == FirstSuccess(reports, retryCount)
      decreases MAX_RETRIES - retryCount
    {
      var outcome, more := RunAttempt(e, attempt(retryCount));
      assert reports[retryCount] == Report(outcome, more);
      kept := kept + more;
      if outcome == Succeeded {
        tries := retryCount + 1;
        r := Ok(kept);
        return;
      }
      retryCount := retryCount + 1;
      if retryCount >= MAX_RETRIES {
        tries := retryCount;
        r := Err("Max retries exceeded");
        return;
      }
      var pauses;
      pauses, backoff := Backoff(backoff, retryCount, outcome);
      sleeps := sleeps + pauses;
    }
  }

  /** The sleeps after the `retryCount`-th failure, and the next back-off. */
  method Backoff(backoff: real, retryCount: nat, outcome: Outcome) returns (pauses: seq<real>, next: real)
    requires retryCount >= 1 && backoff == BackoffValue(retryCount - 1)
    ensures pauses == FailureSleeps(retryCount, outcome)
    ensures next == BackoffValue(retryCount)
  {
    pauses := [MinReal(backoff, MAX_BACKOFF)];
    next := backoff * BACKOFF_FACTOR;
    if outcome.Failed? && outcome.closed {
      pauses := pauses + [MinReal(RECONNECT_BACKOFF * Pow(2.0, retryCount), MAX_RECONNECT_BACKOFF)];
    }
  }

  /** `retrieve_batch`: count the expected answers, then run the retry loop. */
  method RetrieveBatch(batch: seq<Request>, attempt: nat -> AttemptScript)
    returns (r: Result<seq<Json>, string>, tries: nat, sleeps: seq<real>)
    ensures r == BatchResult(batch, attempt)
    ensures Expected(batch).None? ==> tries == 0 && sleeps == []
    ensures Expected(batch).Some? ==>
      1 <= tries <= MAX_RETRIES && sleeps == SleepsAfter(Reports(Expected(batch).value, attempt), tries - 1)
  {
    var expected := ExpectedInferences(batch);
    if expected.None? {
      return Err("TypeError"), 0, [];
    }
    var kept;
    kept, tries, sleeps := RetryLoop(expected.value, attempt);
    r := if kept.Ok? then Ok(FlattenPayloads(kept.value)) else Err(kept.error);
  }

  /** A batch succeeds exactly when one of its first hundred attempts does. */
  lemma BatchResultMeaning(batch: seq<Request>, attempt: nat -> AttemptScript)
    requires Expected(batch).Some?
    ensures BatchResult(batch, attempt).Ok? <==>
      exists k :: 0 <= k < MAX_RETRIES && OutcomeOf(Expected(batch).value, attempt(k)) == Succeeded
  {
    var reports := Reports(Expected(batch).value, attempt);
    FirstSuccessSpec(reports, 0);
    if FirstSuccess(reports, 0).Some? {
      var k := FirstSuccess(reports, 0).value;
      assert reports[k] == ReportOf(Expected(batch).value, attempt(k));
    } else {
      forall k | 0 <= k < MAX_RETRIES ensures OutcomeOf(Expected(batch).value, attempt(k)) != Succeeded {
        assert reports[k] == ReportOf(Expected(batch).value, attempt(k));
      }
    }
  }

  /** The back-off sleep grows with each failure and reaches its 60 s cap at the fifth. */
  lemma BackoffSchedule(k: nat)
    requires k >= 1
    ensures INITIAL_BACKOFF <= BackoffSleep(k) <= BackoffSleep(k + 1) <= MAX_BACKOFF
    ensures BackoffSleep(k) == MAX_BACKOFF <==> k >= 5
  {
    BackoffValueClosedForm(k - 1);
    BackoffValueClosedForm(k);
    PowGrows(BACKOFF_FACTOR, k - 1);
    assert Pow(BACKOFF_FACTOR, 3) == 15.625 by {
      assert Pow(BACKOFF_FACTOR, 1) == 2.5;
      assert Pow(BACKOFF_FACTOR, 2) == 6.25;
    }
    assert Pow(BACKOFF_FACTOR, 4) == 39.0625;
    if k >= 5 {
      PowMono(BACKOFF_FACTOR, 4, k - 1);
    } else {
      PowMono(BACKOFF_FACTOR, k - 1, 3);
    }
  }

  /** The reconnection sleep reaches its 600 s cap at the eighth failure. */
  lemma ReconnectSchedule(k: nat)
    ensures RECONNECT_BACKOFF <= ReconnectSleep(k) <= ReconnectSleep(k + 1) <= MAX_RECONNECT_BACKOFF
    ensures ReconnectSleep(k) == MAX_RECONNECT_BACKOFF <==> k >= 8
  {
    PowGrows(2.0, k);
    assert Pow(2.0, 7) == 128.0 by {
      assert Pow(2.0, 3) == 8.0;
    }
    assert Pow(2.0, 8) == 256.0;
    if k >= 8 {
      PowMono(2.0, 8, k);
    } else {
      PowMono(2.0, k, 7);
    }
  }

  /** After `n` failures there are between `n` and `2n` sleeps, each between 2 s and 600 s. */
  lemma {:induction false} SleepsBounded(reports: seq<Report>, n: nat)
    requires n <= |reports|
    ensures n <= |SleepsAfter(reports, n)| <= 2 * n
    ensures forall k :: 0 <= k < |SleepsAfter(reports, n)| ==>
      INITIAL_BACKOFF <= SleepsAfter(reports, n)[k] <= MAX_RECONNECT_BACKOFF
    decreases n
  {
    if n > 0 {
      SleepsBounded(reports, n - 1);
      BackoffSchedule(n);
      ReconnectSchedule(n);
    }
  }

  // ---------------------------------------------------------------- flattening

  /** The items a payload contributes: a list's elements, any other value as one item. */
  function Items(v: Json): seq<Json> {
    if IsList(v) then v.items else [v]
  }

  /** `list(chain(*inferences))`, reading a non-list payload as a single inference. */
  function FlattenPayloads(ps: seq<Json>): seq<Json>
    decreases |ps|
  {
    if ps == [] then [] else Items(ps[0]) + FlattenPayloads(ps[1..])
  }

  function CountAll(ps: seq<Json>): nat
    decreases |ps|
  {
    if ps == [] then 0 else InferenceCount(ps[0]) + CountAll(ps[1..])
  }

  /** The flattened list holds exactly as many items as the payloads were counted for. */
  lemma {:induction false} FlattenCount(ps: seq<Json>)
    ensures |FlattenPayloads(ps)| == CountAll(ps)
    decreases |ps|
  {
    if ps != [] {
      FlattenCount(ps[1..]);
    }
  }

  /** Every item of every payload is in the flattened list. */
  lemma {:induction false} FlattenKeeps(ps: seq<Json>, k: nat, j: nat)
    requires k < |ps| && j < |Items(ps[k])|
    ensures Items(ps[k])[j] in FlattenPayloads(ps)
    decreases k
  {
    if k > 0 {
      FlattenKeeps(ps[1..], k - 1, j);
    }
  }

  /**
   * `list(chain(*inferences))` as written: a list contributes its elements, a string its
   * characters, a dictionary its keys (`keysOf` gives them in insertion order), and a number,
   * boolean or null is not iterable (a TypeError).
   */
  function FlattenAsWritten(ps: seq<Json>, keysOf: map<string, Json> -> seq<string>): Option<seq<Json>>
    decreases |ps|
  {
    if ps == [] then Some([])
    else
      var rest := FlattenAsWritten(ps[1..], keysOf);
      var head: Option<seq<Json>> := match ps[0]
        case Arr(items) => Some(items)
        case Str(s) => Some(seq(|s|, k requires 0 <= k < |s| => Str([s[k]])))
        case Obj(m) => Some(seq(|keysOf(m)|, k requires 0 <= k < |keysOf(m)| => Str(keysOf(m)[k])))
        case _ => None;
      if head.None? || rest.None? then None else Some(head.value + rest.value)
  }

  /**
   * A number kept as an `inference` payload (counted as one inference) makes flattening raise,
   * and since the list is kept across attempts every later flattening raises too.
   */
  lemma {:induction false} ScalarPayloadPoisons(ps: seq<Json>, k: nat, keysOf: map<string, Json> -> seq<string>)
    requires k < |ps| && ps[k].Num?
    ensures InferenceCount(ps[k]) == 1
    ensures FlattenAsWritten(ps, keysOf) == None
    decreases k
  {
    if k > 0 {
      ScalarPayloadPoisons(ps[1..], k - 1, keysOf);
    }
  }

  /** A single answer sent as an object rather than a one-element list comes out as its keys. */
  lemma ObjectPayloadSpreads(f: map<string, Json>, keysOf: map<string, Json> -> seq<string>)
    requires |keysOf(f)| != 1
    ensures InferenceCount(Obj(f)) == 1
    ensures FlattenAsWritten([Obj(f)], keysOf).Some?
    ensures |FlattenAsWritten([Obj(f)], keysOf).value| != |FlattenPayloads([Obj(f)])|
  {
    assert [Obj(f)][1..] == [];
  }

  /** Payload `i` of attempt `j` keeps its place in the list kept up to any later attempt. */
  lemma {:induction false} KeptUpToAt(reports: seq<Report>, j: nat, n: nat, i: nat)
    requires j < n <= |reports| && i < |reports[j].kept|
    ensures |KeptUpTo(reports, j)| + i < |KeptUpTo(reports, n)|
    ensures KeptUpTo(reports, n)[|KeptUpTo(reports, j)| + i] == reports[j].kept[i]
    decreases n
  {
    if n > j + 1 {
      KeptUpToAt(reports, j, n - 1, i);
    }
  }

  /**
   * As written, the `list(chain(*inferences))` that ends a complete attempt runs over every
   * payload kept since the batch began: once attempt `j` has kept a number, the flattening of
   * attempt `j` and of every later attempt raises, and each of them is retried.
   */
  lemma ScalarAnswerRetried(
    e: nat, attempt: nat -> AttemptScript, keysOf: map<string, Json> -> seq<string>, j: nat, i: nat, n: nat)
    requires j < n <= MAX_RETRIES
    requires i < |KeptOf(e, attempt(j))| && KeptOf(e, attempt(j))[i].Num?
    ensures FlattenAsWritten(KeptUpTo(Reports(e, attempt), n), keysOf) == None
  {
    var reports := Reports(e, attempt);
    assert reports[j].kept == KeptOf(e, attempt(j));
    KeptUpToAt(reports, j, n, i);
    ScalarPayloadPoisons(KeptUpTo(reports, n), |KeptUpTo(reports, j)| + i, keysOf);
  }

  /** A connection that answers the single expected timestamp with `{"inference": 5}` and then falls silent. */
  function ScalarAnswer(k: nat): AttemptScript {
    Exchange([Parsed(Obj(map["inference" := Num(5.0)]))], TimedOut)
  }

  /**
   * A one-timestamp batch answered `{"inference": 5}` on every connection: with the corrected
   * flattening the first attempt yields the one answer, while as written every attempt's
   * flattening raises, so all hundred are retried and the batch ends in "Max retries exceeded".
   */
  lemma ScalarBatchContrast(keysOf: map<string, Json> -> seq<string>)
    ensures BatchResult([Request(Price, "F", BULK_QUANTITY, Bid, Y, Some(["t"]), false)], ScalarAnswer)
      == Ok([Num(5.0)])
    ensures forall n :: 1 <= n <= MAX_RETRIES ==> FlattenAsWritten(KeptUpTo(Reports(1, ScalarAnswer), n), keysOf) == None
  {
    var batch := [Request(Price, "F", BULK_QUANTITY, Bid, Y, Some(["t"]), false)];
    assert batch[..0] == [];
    assert Expected(batch) == Some(1);
    var ms := [Parsed(Obj(map["inference" := Num(5.0)]))];
    var es := Effects(ms);
    assert es[0] == Accounts(1, Some(Num(5.0)));
    assert es[1..] == [];
    assert ScanFrom(1, 0, es) == Reached(1);
    assert es[..1] == es;
    assert Payloads(es) == [Num(5.0)];
    assert KeptOf(1, ScalarAnswer(0)) == [Num(5.0)];
    var reports := Reports(1, ScalarAnswer);
    assert reports[0] == Report(Succeeded, [Num(5.0)]);
    assert FirstSuccess(reports, 0) == Some(0);
    assert KeptUpTo(reports, 1) == [Num(5.0)];
    assert FlattenPayloads([Num(5.0)]) == [Num(5.0)];
    forall n | 1 <= n <= MAX_RETRIES
      ensures FlattenAsWritten(KeptUpTo(reports, n), keysOf) == None
    {
      assert ScalarAnswer(0) == Exchange(ms, TimedOut);
      ScalarAnswerRetried(1, ScalarAnswer, keysOf, 0, 0, n);
    }
  }

  // ---------------------------------------------------------------- the whole run

  /** `batch_delay` after a batch: on failure multiplied by 2.5 and capped at 60 s. */
  function NextBatchDelay(delay: real, failed: bool): real {
    if failed then MinReal(delay * BACKOFF_FACTOR, MAX_BACKOFF) else delay
  }

  function CountTrue(fs: seq<bool>): nat
    decreases |fs|
  {
    if fs == [] then 0 else CountTrue(fs[..|fs| - 1]) + (if fs[|fs| - 1] then 1 else 0)
  }

  function DelayAfter(delay: real, fs: seq<bool>): real
    decreases |fs|
  {
    if fs == [] then delay else NextBatchDelay(DelayAfter(delay, fs[..|fs| - 1]), fs[|fs| - 1])
  }

  /** After any tasks, the delay is 0.1 s times 2.5 per failed batch so far, capped at 60 s. */
  lemma {:induction false} DelayClosedForm(fs: seq<bool>)
    ensures DelayAfter(BATCH_DELAY, fs) == MinReal(BATCH_DELAY * Pow(BACKOFF_FACTOR, CountTrue(fs)), MAX_BACKOFF)
    decreases |fs|
  {
    if fs != [] {
      var init := fs[..|fs| - 1];
      DelayClosedForm(init);
      var x := BATCH_DELAY * Pow(BACKOFF_FACTOR, CountTrue(init));
      PowGrows(BACKOFF_FACTOR, CountTrue(init));
      assert Pow(BACKOFF_FACTOR, CountTrue(init) + 1) == BACKOFF_FACTOR * Pow(BACKOFF_FACTOR, CountTrue(init));
      if fs[|fs| - 1] {
        assert MinReal(MinReal(x, MAX_BACKOFF) * BACKOFF_FACTOR, MAX_BACKOFF) == MinReal(x * BACKOFF_FACTOR, MAX_BACKOFF);
      }
    }
  }

  /** The delay never leaves [0.1, 60], so every pause after a batch is between 0.5 s and 60 s. */
  lemma DelayBounds(fs: seq<bool>)
    ensures BATCH_DELAY <= DelayAfter(BATCH_DELAY, fs) <= MAX_BACKOFF
    ensures MIN_BATCH_PAUSE <= MaxReal(MIN_BATCH_PAUSE, DelayAfter(BATCH_DELAY, fs)) <= MAX_BACKOFF
  {
    DelayClosedForm(fs);
    PowGrows(BACKOFF_FACTOR, CountTrue(fs));
  }

  /** A task fails when its index is outside the batches or its batch's retrieval fails. */
  predicate TaskFailed(batches: seq<seq<Request>>, idx: int, attempts: int -> nat -> AttemptScript) {
    PyIndex(batches, idx).None? || BatchResult(PyIndex(batches, idx).value, attempts(idx)).Err?
  }

  /** The results a task writes to the file: its batch's answers, or nothing if it failed. */
  function TaskResults(batches: seq<seq<Request>>, idx: int, attempts: int -> nat -> AttemptScript): seq<Json> {
    if TaskFailed(batches, idx, attempts) then [] else BatchResult(PyIndex(batches, idx).value, attempts(idx)).value
  }

  function Collected(batches: seq<seq<Request>>, tasks: seq<int>, attempts: int -> nat -> AttemptScript): seq<Json>
    decreases |tasks|
  {
    if tasks == [] then []
    else Collected(batches, tasks[..|tasks| - 1], attempts) + TaskResults(batches, tasks[|tasks| - 1], attempts)
  }

  function Failures(batches: seq<seq<Request>>, tasks: seq<int>, attempts: int -> nat -> AttemptScript): (r: seq<bool>)
    ensures |r| == |tasks|
  {
    seq(|tasks|, k requires 0 <= k < |tasks| => TaskFailed(batches, tasks[k], attempts))
  }

  /** The pause after each task: half a second, or the delay as it stands after that task if longer. */
  function Pauses(batches: seq<seq<Request>>, tasks: seq<int>, attempts: int -> nat -> AttemptScript): (r: seq<real>)
    ensures |r| == |tasks|
    decreases |tasks|
  {
    if tasks == [] then []
    else
      Pauses(batches, tasks[..|tasks| - 1], attempts)
      + [MaxReal(MIN_BATCH_PAUSE, DelayAfter(BATCH_DELAY, Failures(batches, tasks, attempts)))]
  }

  /** Every pause lasts between half a second and a minute. */
  lemma {:induction false} PausesBounded(batches: seq<seq<Request>>, tasks: seq<int>, attempts: int -> nat -> AttemptScript)
    ensures forall k :: 0 <= k < |tasks| ==>
      MIN_BATCH_PAUSE <= Pauses(batches, tasks, attempts)[k] <= MAX_BACKOFF
    decreases |tasks|
  {
    if tasks != [] {
      PausesBounded(batches, tasks[..|tasks| - 1], attempts);
      DelayBounds(Failures(batches, tasks, attempts));
    }
  }

  /** The file texts of the results: `add_indent(json.dumps(result, indent=4))`, `dumps` being the JSON encoder. */
  function Texts(results: seq<Json>, dumps: Json -> string): (r: seq<string>)
    ensures |r| == |results|
  {
    seq(|results|, k requires 0 <= k < |results| => AddIndent(dumps(results[k])))
  }

  lemma TextsStep(results: seq<Json>, j: nat, dumps: Json -> string)
    requires j < |results|
    ensures Texts(results[..j + 1], dumps) == Texts(results[..j], dumps) + [AddIndent(dumps(results[j]))]
  {
    assert Texts(results[..j + 1], dumps)[..j] == Texts(results[..j], dumps);
  }

  /** `for result in batch_result: append_item_to_json(output_file, result)`. */
  method AppendAll(file: OutputFile, results: seq<Json>, dumps: Json -> string)
    requires file.Valid()
    modifies file
    ensures file.Valid()
    ensures file.items == old(file.items) + Texts(results, dumps)
  {
    var j := 0;
    while j < |results|
      invariant 0 <= j <= |results|
      invariant file.Valid()
      invariant file.items == old(file.items) + Texts(results[..j], dumps)
    {
      TextsStep(results, j, dumps);
      file.Append(dumps(results[j]));
      j := j + 1;
    }
    assert results[..j] == results;
  }

  /**
   * `process_batch`: retrieve the batch and append its results, or on any failure raise the
   * delay; then pause for at least half a second (the pause is returned).
   */
  method ProcessBatch(
    file: OutputFile, batches: seq<seq<Request>>, idx: int, delay: real,
    attempts: int -> nat -> AttemptScript, dumps: Json -> string)
    returns (failed: bool, newDelay: real, pause: real)
    requires file.Valid()
    modifies file
    ensures file.Valid()
    ensures file.items == old(file.items) + Texts(TaskResults(batches, idx, attempts), dumps)
    ensures failed == TaskFailed(batches, idx, attempts)
    ensures newDelay == NextBatchDelay(delay, failed)
    ensures pause == MaxReal(MIN_BATCH_PAUSE, newDelay)
  {
    var batch := PyIndex(batches, idx);
    failed := true;
    if batch.Some? {
      var r, _, _ := RetrieveBatch(batch.value, attempts(idx));
      if r.Ok? {
        AppendAll(file, r.value, dumps);
        failed := false;
      }
    }
    newDelay := NextBatchDelay(delay, failed);
    pause := MaxReal(MIN_BATCH_PAUSE, newDelay);
  }

  /** Everything `main` computes before the output file is opened: the batches, or the error that stops it. */
  function Plan(year: int, today: int, figis: seq<string>, info: map<string, BondInfo>, utcOf: Stamp -> DateTime)
    : Result<seq<seq<Request>>, string>
  {
    if !(1 <= year <= 9999) then Err("ValueError: year is out of range")
    else
      var w := RecentWindow(year, today);
      var ts := TimestampsOf(TradingDays(w.0, w.1));
      match InferenceRequests(figis, ts, info, utcOf)
      case Err(e) => Err(e)
      case Ok(requests) =>
        match BatchSize(|ts|)
        case Err(e) => Err(e)
        case Ok(n) => Ok(Chunks(requests, n))
  }

  lemma MulMono(a: nat, b: nat, c: nat)
    requires a <= b
    ensures a * c <= b * c
  {
  }

  lemma ChunkMembers<T>(s: seq<T>, n: nat, k: nat)
    requires n > 0 && k < |Chunks(s, n)|
    ensures forall x :: x in Chunks(s, n)[k] ==> x in s
  {
    var bs := Chunks(s, n);
    ChunksSpec(s, n);
    forall x | x in bs[k] ensures x in s {
      var j :| 0 <= j < |bs[k]| && bs[k][j] == x;
      FlattenElement(bs, k, j);
    }
  }

  /** Cut into groups of `n`, requests of at most `bound` times each stay within the budget if `n * bound` does. */
  lemma ChunkBudget(requests: seq<Request>, n: nat, bound: nat, k: nat)
    requires n > 0 && n * bound <= TIMESTAMP_BUDGET
    requires forall q :: q in requests ==> q.timestamp.Some? && |q.timestamp.value| <= bound
    requires k < |Chunks(requests, n)|
    ensures Expected(Chunks(requests, n)[k]).Some? && Expected(Chunks(requests, n)[k]).value <= TIMESTAMP_BUDGET
  {
    var b: seq<Request> := Chunks(requests, n)[k];
    ChunkMembers(requests, n, k);
    ChunksSpec(requests, n);
    ExpectedBound(b, bound);
    MulMono(|b|, n, bound);
  }

  /** Every batch of the plan asks for at most 32000 answers. */
  lemma PlanBudget(year: int, today: int, figis: seq<string>, info: map<string, BondInfo>, utcOf: Stamp -> DateTime, k: nat)
    requires Plan(year, today, figis, info, utcOf).Ok?
    requires k < |Plan(year, today, figis, info, utcOf).value|
    ensures var b := Plan(year, today, figis, info, utcOf).value[k];
      Expected(b).Some? && Expected(b).value <= TIMESTAMP_BUDGET
  {
    var w := RecentWindow(year, today);
    var ts := TimestampsOf(TradingDays(w.0, w.1));
    var requests := InferenceRequests(figis, ts, info, utcOf).value;
    RequestsCarryWindows(figis, ts, info, utcOf);
    BatchSizeBudget(|ts|);
    ChunkBudget(requests, BatchSize(|ts|).value, |ts|, k);
  }

  /** The plan's batches, in order, are the requests cut into consecutive groups of the batch size. */
  lemma PlanShape(year: int, today: int, figis: seq<string>, info: map<string, BondInfo>, utcOf: Stamp -> DateTime)
    requires Plan(year, today, figis, info, utcOf).Ok?
    ensures var w := RecentWindow(year, today);
      var ts := TimestampsOf(TradingDays(w.0, w.1));
      && InferenceRequests(figis, ts, info, utcOf).Ok? && BatchSize(|ts|).Ok?
      && Flatten(Plan(year, today, figis, info, utcOf).value) == InferenceRequests(figis, ts, info, utcOf).value
      && WellSized(Plan(year, today, figis, info, utcOf).value, BatchSize(|ts|).value)
  {
    var w := RecentWindow(year, today);
    var ts := TimestampsOf(TradingDays(w.0, w.1));
    ChunksSpec(InferenceRequests(figis, ts, info, utcOf).value, BatchSize(|ts|).value);
  }

  /**
   * `main`: plan the batches, open the file with '[', run the tasks `range(start_batch,
   * len(batches))` one after another, and close the file. The result is the file's text and
   * the pauses taken after the tasks.
   */
  method Evaluate(
    year: int, startBatch: int, today: int, figis: seq<string>, info: map<string, BondInfo>,
    utcOf: Stamp -> DateTime, attempts: int -> nat -> AttemptScript, dumps: Json -> string)
    returns (r: Result<string, string>, pauses: seq<real>)
    ensures r.Err? <==> Plan(year, today, figis, info, utcOf).Err?
    ensures r.Err? ==> r.error == Plan(year, today, figis, info, utcOf).error && pauses == []
    ensures r.Ok? ==>
      var batches := Plan(year, today, figis, info, utcOf).value;
      var tasks := TaskIndices(startBatch, |batches|);
      && r.value == Closed(Texts(Collected(batches, tasks, attempts), dumps))
      && pauses == Pauses(batches, tasks, attempts)
  {
    if !(1 <= year <= 9999) {
      return Err("ValueError: year is out of range"), [];
    }
    var w := RecentWindow(year, today);
    var ts := GenerateTimestamps(TradingDays(w.0, w.1));
    var requests := InferenceRequests(figis, ts, info, utcOf);
    if requests.Err? {
      return Err(requests.error), [];
    }
    var size := BatchSize(|ts|);
    if size.Err? {
      return Err(size.error), [];
    }
    var batches := Chunks(requests.value, size.value);
    var tasks := TaskIndices(startBatch, |batches|);
    var file := new OutputFile();
    pauses := RunTasks(file, batches, tasks, attempts, dumps);
    file.Close();
    r := Ok(file.content);
  }

  /** `asyncio.gather(*tasks)`, the tasks taken one after another with the shared `batch_delay`. */
  method RunTasks(
    file: OutputFile, batches: seq<seq<Request>>, tasks: seq<int>,
    attempts: int -> nat -> AttemptScript, dumps: Json -> string)
    returns (pauses: seq<real>)
    requires file.Valid() && file.items == []
    modifies file
    ensures file.Valid()
    ensures file.items == Texts(Collected(batches, tasks, attempts), dumps)
    ensures pauses == Pauses(batches, tasks, attempts)
  {
    var delay := BATCH_DELAY;
    pauses := [];
    var t := 0;
    while t < |tasks|
      invariant 0 <= t <= |tasks|
      invariant file.Valid()
      invariant file.items == Texts(Collected(batches, tasks[..t], attempts), dumps)
      invariant delay == DelayAfter(BATCH_DELAY, Failures(batches, tasks[..t], attempts))
      invariant pauses == Pauses(batches, tasks[..t], attempts)
    {
      var failed, pause;
      failed, delay, pause := ProcessBatch(file, batches, tasks[t], delay, attempts, dumps);
      CollectedStep(batches, tasks, t, attempts);
      TextsAppend(Collected(batches, tasks[..t], attempts), TaskResults(batches, tasks[t], attempts), dumps);
      PausesStep(batches, tasks, t, attempts);
      pauses := pauses + [pause];
      t := t + 1;
    }
    assert tasks[..|tasks|] == tasks;
  }

  /** Running task `t` extends the collected results by that task's. */
  lemma CollectedStep(batches: seq<seq<Request>>, tasks: seq<int>, t: nat, attempts: int -> nat -> AttemptScript)
    requires t < |tasks|
    ensures Collected(batches, tasks[..t + 1], attempts)
      == Collected(batches, tasks[..t], attempts) + TaskResults(batches, tasks[t], attempts)
  {
    assert tasks[..t + 1][..t] == tasks[..t];
  }

  lemma TextsAppend(a: seq<Json>, b: seq<Json>, dumps: Json -> string)
    ensures Texts(a + b, dumps) == Texts(a, dumps) + Texts(b, dumps)
  {
    var l, r := Texts(a + b, dumps), Texts(a, dumps) + Texts(b, dumps);
    forall k | 0 <= k < |l| ensures l[k] == r[k] {
      if k >= |a| {
        assert (a + b)[k] == b[k - |a|];
      }
    }
  }

  /** Running task `t` adds one pause and one step of the delay. */
  lemma PausesStep(batches: seq<seq<Request>>, tasks: seq<int>, t: nat, attempts: int -> nat -> AttemptScript)
    requires t < |tasks|
    ensures Pauses(batches, tasks[..t + 1], attempts)
      == Pauses(batches, tasks[..t], attempts) + [MaxReal(MIN_BATCH_PAUSE, DelayAfter(BATCH_DELAY, Failures(batches, tasks[..t + 1], attempts)))]
    ensures DelayAfter(BATCH_DELAY, Failures(batches, tasks[..t + 1], attempts))
      == NextBatchDelay(DelayAfter(BATCH_DELAY, Failures(batches, tasks[..t], attempts)), TaskFailed(batches, tasks[t], attempts))
  {
    assert tasks[..t + 1][..t] == tasks[..t];
    var fs := Failures(batches, tasks[..t + 1], attempts);
    assert fs[..t] == Failures(batches, tasks[..t], attempts);
  }
}
