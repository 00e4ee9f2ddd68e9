/**
 * The request plan of the year-long bulk evaluation script: every FIGI at every evaluation
 * time in the four side/ATS combinations, cut into batches of 1500 requests.
 */
module Planner {

  import opened Wrappers
  import opened Calendar
  import opened Requests
  import opened Batching

  const BATCH_SIZE: nat := 1500

  /** The side/ATS combinations, in the order each FIGI and time are expanded into. */
  const COMBINATIONS: seq<(Side, Ats)> := [(Bid, Y), (Bid, N), (Offer, Y), (Offer, N)]

  /** One element of `all_combinations`. */
  datatype Combination = Combination(figi: string, ts: Stamp, side: Side, ats: Ats)

  /** The four combinations of one FIGI at one time. */
  function Quad(figi: string, ts: Stamp): (r: seq<Combination>)
    ensures |r| == 4
  {
    [Combination(figi, ts, Bid, Y), Combination(figi, ts, Bid, N), Combination(figi, ts, Offer, Y), Combination(figi, ts, Offer, N)]
  }

  lemma QuadAt(figi: string, ts: Stamp, c: nat)
    requires c < 4
    ensures Quad(figi, ts)[c] == Combination(figi, ts, COMBINATIONS[c].0, COMBINATIONS[c].1)
  {
  }

  /** The combinations of one FIGI at a given time. */
  function QuadsOf(figi: string): Stamp -> seq<Combination> {
    ts => Quad(figi, ts)
  }

  /** All combinations of one FIGI, time by time. */
  function PerFigi(figi: string, timestamps: seq<Stamp>): seq<Combination> {
    ConcatMap(timestamps, QuadsOf(figi))
  }

  /** The combinations of a given FIGI over the evaluation times. */
  function PerFigiOf(timestamps: seq<Stamp>): string -> seq<Combination> {
    figi => PerFigi(figi, timestamps)
  }

  /** All combinations, FIGI by FIGI. */
  function CombinationsOf(figis: seq<string>, timestamps: seq<Stamp>): seq<Combination> {
    ConcatMap(figis, PerFigiOf(timestamps))
  }

  /**
   * `format_timestamp_for_api(convert_to_utc(t))`: the API text of an Eastern evaluation time,
   * `utcOf` being the time-zone conversion.
   */
  function ApiTime(utcOf: Stamp -> DateTime): Stamp -> string {
    ts => FormatTimestampForApi(utcOf(ts))
  }

  /** A planned time's API text reads back as its UTC time cut to milliseconds. */
  lemma ApiTimeParses(utcOf: Stamp -> DateTime, ts: Stamp)
    requires ValidDateTime(utcOf(ts))
    ensures ParseApiTimestamp(ApiTime(utcOf)(ts)) == Some(Truncated(utcOf(ts)))
  {
    FormatRoundTrip(utcOf(ts));
  }

  /** The inference request for one combination; `apiTime` gives the API text of its time. */
  function ToRequest(c: Combination, rfqLabel: Label, apiTime: Stamp -> string): Request {
    Request(rfqLabel, c.figi, BULK_QUANTITY, c.side, c.ats, Some([apiTime(c.ts)]), false)
  }

  function RequestsOf(cs: seq<Combination>, rfqLabel: Label, apiTime: Stamp -> string): (r: seq<Request>)
    ensures |r| == |cs|
  {
    seq(|cs|, k requires 0 <= k < |cs| => ToRequest(cs[k], rfqLabel, apiTime))
  }

  lemma PerFigiLength(figi: string, timestamps: seq<Stamp>)
    ensures |PerFigi(figi, timestamps)| == Offset(|timestamps|, 4)
  {
    ConcatMapLength(timestamps, QuadsOf(figi), 4);
  }

  /** Position `Offset(t, 4) + c` of one FIGI's combinations is time `t` in combination `c`. */
  lemma PerFigiAt(figi: string, timestamps: seq<Stamp>, t: nat, c: nat)
    requires t < |timestamps| && c < 4
    ensures Offset(t, 4) + c < |PerFigi(figi, timestamps)|
    ensures PerFigi(figi, timestamps)[Offset(t, 4) + c] == Combination(figi, timestamps[t], COMBINATIONS[c].0, COMBINATIONS[c].1)
  {
    ConcatMapAt(timestamps, QuadsOf(figi), 4, t, c);
    QuadAt(figi, timestamps[t], c);
  }

  lemma CombinationsSize(figis: seq<string>, timestamps: seq<Stamp>)
    ensures |CombinationsOf(figis, timestamps)| == Offset(|figis|, Offset(|timestamps|, 4))
  {
    forall k | 0 <= k < |figis| ensures |PerFigiOf(timestamps)(figis[k])| == Offset(|timestamps|, 4) {
      PerFigiLength(figis[k], timestamps);
    }
    ConcatMapLength(figis, PerFigiOf(timestamps), Offset(|timestamps|, 4));
  }

  /**
   * The plan is FIGI-major: with `m` combinations per FIGI, position `Offset(f, m) + j` is
   * position `j` of FIGI `f`'s combinations.
   */
  lemma CombinationsAt(figis: seq<string>, timestamps: seq<Stamp>, f: nat, j: nat)
    requires f < |figis| && j < Offset(|timestamps|, 4)
    ensures |PerFigi(figis[f], timestamps)| == Offset(|timestamps|, 4)
    ensures Offset(f, Offset(|timestamps|, 4)) + j < |CombinationsOf(figis, timestamps)|
    ensures CombinationsOf(figis, timestamps)[Offset(f, Offset(|timestamps|, 4)) + j] == PerFigi(figis[f], timestamps)[j]
  {
    forall k | 0 <= k < |figis| ensures |PerFigiOf(timestamps)(figis[k])| == Offset(|timestamps|, 4) {
      PerFigiLength(figis[k], timestamps);
    }
    ConcatMapAt(figis, PerFigiOf(timestamps), Offset(|timestamps|, 4), f, j);
  }

  lemma CombinationsLength(figis: seq<string>, timestamps: seq<Stamp>)
    ensures |CombinationsOf(figis, timestamps)| == |figis| * (4 * |timestamps|)
  {
    CombinationsSize(figis, timestamps);
    OffsetIsProduct(|timestamps|, 4);
    OffsetIsProduct(|figis|, 4 * |timestamps|);
  }

  lemma CombinationsStep(figis: seq<string>, timestamps: seq<Stamp>, f: nat)
    requires f < |figis|
    ensures CombinationsOf(figis[..f + 1], timestamps) == CombinationsOf(figis[..f], timestamps) + PerFigi(figis[f], timestamps)
  {
    ConcatMapStep(figis, PerFigiOf(timestamps), f);
  }

  lemma PerFigiStep(figi: string, timestamps: seq<Stamp>, t: nat)
    requires t < |timestamps|
    ensures PerFigi(figi, timestamps[..t + 1]) == PerFigi(figi, timestamps[..t]) + Quad(figi, timestamps[t])
  {
    ConcatMapStep(timestamps, QuadsOf(figi), t);
  }

  lemma QuadStep(figi: string, ts: Stamp, c: nat)
    requires c < 4
    ensures Quad(figi, ts)[..c + 1] == Quad(figi, ts)[..c] + [Combination(figi, ts, COMBINATIONS[c].0, COMBINATIONS[c].1)]
  {
    QuadAt(figi, ts, c);
  }

  lemma AppendOne<T>(a: seq<T>, b: seq<T>, x: T)
    ensures a + b + [x] == a + (b + [x])
  {
  }

  /** The nested loops over FIGIs, times and combinations that fill `all_combinations`. */
  method AllCombinations(figis: seq<string>, timestamps: seq<Stamp>) returns (all: seq<Combination>)
    ensures all == CombinationsOf(figis, timestamps)
  {
    all := [];
    var f := 0;
    while f < |figis|
      invariant 0 <= f <= |figis|
      invariant all == CombinationsOf(figis[..f], timestamps)
    {
      var figi := figis[f];
      ghost var before := all;
      var t := 0;
      while t < |timestamps|
        invariant 0 <= t <= |timestamps|
        invariant all == before + PerFigi(figi, timestamps[..t])
      {
        ghost var block := PerFigi(figi, timestamps[..t]);
        var c := 0;
        while c < |COMBINATIONS|
          invariant 0 <= c <= |COMBINATIONS|
          invariant all == before + (block + Quad(figi, timestamps[t])[..c])
        {
          QuadStep(figi, timestamps[t], c);
          AppendOne(before, block + Quad(figi, timestamps[t])[..c], Combination(figi, timestamps[t], COMBINATIONS[c].0, COMBINATIONS[c].1));
          AppendOne(block, Quad(figi, timestamps[t])[..c], Combination(figi, timestamps[t], COMBINATIONS[c].0, COMBINATIONS[c].1));
          all := all + [Combination(figi, timestamps[t], COMBINATIONS[c].0, COMBINATIONS[c].1)];
          c := c + 1;
        }
        assert Quad(figi, timestamps[t])[..4] == Quad(figi, timestamps[t]);
        PerFigiStep(figi, timestamps, t);
        t := t + 1;
      }
      assert timestamps[..t] == timestamps;
      CombinationsStep(figis, timestamps, f);
      f := f + 1;
    }
    assert figis[..f] == figis;
  }

  lemma RequestsSlice(cs: seq<Combination>, rfqLabel: Label, apiTime: Stamp -> string, i: nat, j: nat)
    requires i <= j <= |cs|
    ensures RequestsOf(cs, rfqLabel, apiTime)[i..j] == RequestsOf(cs[i..j], rfqLabel, apiTime)
  {
  }

  lemma RequestsStep(cs: seq<Combination>, rfqLabel: Label, apiTime: Stamp -> string, k: nat)
    requires k < |cs|
    ensures RequestsOf(cs[..k + 1], rfqLabel, apiTime) == RequestsOf(cs[..k], rfqLabel, apiTime) + [ToRequest(cs[k], rfqLabel, apiTime)]
  {
    assert RequestsOf(cs[..k + 1], rfqLabel, apiTime)[..k] == RequestsOf(cs[..k], rfqLabel, apiTime);
  }

  /** The inner loop that turns one slice of combinations into a batch of requests. */
  method BatchRequests(slice: seq<Combination>, rfqLabel: Label, apiTime: Stamp -> string) returns (batchRequests: seq<Request>)
    ensures batchRequests == RequestsOf(slice, rfqLabel, apiTime)
  {
    batchRequests := [];
    var k := 0;
    while k < |slice|
      invariant 0 <= k <= |slice|
      invariant batchRequests == RequestsOf(slice[..k], rfqLabel, apiTime)
    {
      var c := slice[k];
      RequestsStep(slice, rfqLabel, apiTime, k);
      batchRequests := batchRequests + [ToRequest(c, rfqLabel, apiTime)];
      k := k + 1;
    }
    assert slice[..k] == slice;
  }

  /**
   * The loop over `range(0, len(all_combinations), batch_size)` that turns each slice of
   * combinations into a batch of requests.
   */
  method MakeBatches(all: seq<Combination>, rfqLabel: Label, apiTime: Stamp -> string)
    returns (batches: seq<seq<Request>>)
    ensures batches == Chunks(RequestsOf(all, rfqLabel, apiTime), BATCH_SIZE)
  {
    var plan := RequestsOf(all, rfqLabel, apiTime);
    batches := [];
    var i := 0;
    while i < |all|
      invariant batches + Chunks(From(plan, i), BATCH_SIZE) == Chunks(plan, BATCH_SIZE)
      invariant i <= |all| || From(plan, i) == []
      decreases |all| - i
    {
      var hi := if i + BATCH_SIZE <= |all| then i + BATCH_SIZE else |all|;
      var slice := all[i..hi];
      var batchRequests := BatchRequests(slice, rfqLabel, apiTime);
      RequestsSlice(all, rfqLabel, apiTime, i, hi);
      ChunksFrom(plan, i, hi, BATCH_SIZE);
      assert (batches + [batchRequests]) + Chunks(From(plan, i + BATCH_SIZE), BATCH_SIZE)
          == batches + ([batchRequests] + Chunks(From(plan, i + BATCH_SIZE), BATCH_SIZE));
      batches := batches + [batchRequests];
      i := i + BATCH_SIZE;
    }
  }

  predicate BulkShaped(r: Request, rfqLabel: Label) {
    r.quantity == BULK_QUANTITY && !r.subscribe && r.rfqLabel == rfqLabel && r.timestamp.Some? && |r.timestamp.value| == 1
  }

  /** Every planned request asks about 1 000 000 at one time, without subscribing. */
  lemma PlanShape(figis: seq<string>, timestamps: seq<Stamp>, rfqLabel: Label, apiTime: Stamp -> string)
    ensures var batches := Chunks(RequestsOf(CombinationsOf(figis, timestamps), rfqLabel, apiTime), BATCH_SIZE);
      && Flatten(batches) == RequestsOf(CombinationsOf(figis, timestamps), rfqLabel, apiTime)
      && |Flatten(batches)| == |figis| * (4 * |timestamps|)
      && (forall k, j :: 0 <= k < |batches| && 0 <= j < |batches[k]| ==> BulkShaped(batches[k][j], rfqLabel))
  {
    CombinationsLength(figis, timestamps);
    var plan := RequestsOf(CombinationsOf(figis, timestamps), rfqLabel, apiTime);
    var batches: seq<seq<Request>> := Chunks(plan, BATCH_SIZE);
    ChunksSpec(plan, BATCH_SIZE);
    forall k, j | 0 <= k < |batches| && 0 <= j < |batches[k]| ensures BulkShaped(batches[k][j], rfqLabel) {
      FlattenElement(batches, k, j);
    }
  }

  /**
   * The request at plan position `f * 4m + 4t + c`, with `m` the number of times, is FIGI `f` at
   * time `t` in combination `c`.
   */
  lemma PlanOrder(figis: seq<string>, timestamps: seq<Stamp>, rfqLabel: Label, apiTime: Stamp -> string, f: nat, t: nat, c: nat)
    requires f < |figis| && t < |timestamps| && c < 4
    ensures var plan := RequestsOf(CombinationsOf(figis, timestamps), rfqLabel, apiTime);
      && f * (4 * |timestamps|) + 4 * t + c < |plan|
      && plan[f * (4 * |timestamps|) + 4 * t + c] ==
         ToRequest(Combination(figis[f], timestamps[t], COMBINATIONS[c].0, COMBINATIONS[c].1), rfqLabel, apiTime)
  {
    PlanCombinationAt(figis, timestamps, f, t, c);
    RequestAt(CombinationsOf(figis, timestamps), rfqLabel, apiTime, f * (4 * |timestamps|) + 4 * t + c);
  }

  lemma RequestAt(cs: seq<Combination>, rfqLabel: Label, apiTime: Stamp -> string, i: nat)
    requires i < |cs|
    ensures RequestsOf(cs, rfqLabel, apiTime)[i] == ToRequest(cs[i], rfqLabel, apiTime)
  {
  }

  lemma PlanCombinationAt(figis: seq<string>, timestamps: seq<Stamp>, f: nat, t: nat, c: nat)
    requires f < |figis| && t < |timestamps| && c < 4
    ensures f * (4 * |timestamps|) + 4 * t + c < |CombinationsOf(figis, timestamps)|
    ensures CombinationsOf(figis, timestamps)[f * (4 * |timestamps|) + 4 * t + c]
      == Combination(figis[f], timestamps[t], COMBINATIONS[c].0, COMBINATIONS[c].1)
  {
    PerFigiAt(figis[f], timestamps, t, c);
    var m := Offset(|timestamps|, 4);
    OffsetIsProduct(|timestamps|, 4);
    OffsetIsProduct(t, 4);
    OffsetIsProduct(f, m);
    assert t * 4 + c < m;
    CombinationsAt(figis, timestamps, f, Offset(t, 4) + c);
  }

  /**
   * The non-test plan for an evaluation year: the trading days from 1 January to 31 December,
   * their 9:00 and 16:00 times, and the batched requests. `datetime(year, 1, 1)` rejects a year
   * outside 1..9999.
   */
  method PlanYear(year: int, figis: seq<string>, rfqLabel: Label, utcOf: Stamp -> DateTime)
    returns (r: Result<seq<seq<Request>>, string>)
    ensures !(1 <= year <= 9999) <==> r.Err?
    ensures r.Ok? ==> r.value == Chunks(RequestsOf(CombinationsOf(figis,
      TimestampsOf(TradingDays(EvaluationYear(year).0, EvaluationYear(year).1))), rfqLabel, ApiTime(utcOf)), BATCH_SIZE)
  {
    if !(1 <= year <= 9999) {
      return Err("year is out of range");
    }
    var (first, last) := EvaluationYear(year);
    var days := TradingDays(first, last);
    var timestamps := GenerateTimestamps(days);
    var all := AllCombinations(figis, timestamps);
    var batches := MakeBatches(all, rfqLabel, ApiTime(utcOf));
    return Ok(batches);
  }
}
