/**
 * ISIN annotation of streamed results in the two live subscription scripts. Results arrive as
 * JSON with FIGIs; each inference item that carries a 'price' or 'spread' field, and each trade,
 * gets an 'isin' field looked up in the reverse OpenFIGI dictionary, 'unknown' when absent.
 * Python's own rules for `in`, subscripting, iteration and hashing decide which payloads raise.
 */
module Annotation {

  import opened Wrappers
  import opened Json
  import OpenFigi

  /** The labels whose presence in an inference item triggers annotation, in loop order. */
  const LABELS: seq<string> := ["price", "spread"]
  const UNKNOWN: string := "unknown"

  /** `figi_to_isin.get(figi, 'unknown')`: a list or dictionary FIGI is unhashable. */
  function IsinOf(figiToIsin: map<string, string>, figi: Json): (r: Result<string, PyError>)
    ensures r.Err? <==> !Hashable(figi)
    ensures figi.Str? && figi.s in figiToIsin ==> r == Ok(figiToIsin[figi.s])
    ensures Hashable(figi) && !(figi.Str? && figi.s in figiToIsin) ==> r == Ok(UNKNOWN)
  {
    match figi
    case Str(s) => Ok(if s in figiToIsin then figiToIsin[s] else UNKNOWN)
    case Arr(_) => Err(TypeError)
    case Obj(_) => Err(TypeError)
    case _ => Ok(UNKNOWN)
  }

  /**
   * `x['isin'] = figi_to_isin.get(x['figi'], 'unknown')`. Only a dictionary can be subscripted
   * with a string; one without 'figi' raises KeyError.
   */
  function SetIsin(figiToIsin: map<string, string>, x: Json): Result<Json, PyError> {
    if !x.Obj? then Err(TypeError)
    else if "figi" !in x.fields then Err(KeyError("figi"))
    else match IsinOf(figiToIsin, x.fields["figi"])
      case Err(e) => Err(e)
      case Ok(isin) => Ok(Obj(x.fields["isin" := Str(isin)]))
  }

  /** One pass of the label loop: `if label in item: item['isin'] = ...`. */
  function LabelStep(figiToIsin: map<string, string>, item: Json, key: string): Result<Json, PyError> {
    match PyIn(key, item)
    case Err(e) => Err(e)
    case Ok(hit) => if hit then SetIsin(figiToIsin, item) else Ok(item)
  }

  /** The label loop over `labels`, stopping at the first exception. */
  function ApplyLabels(figiToIsin: map<string, string>, item: Json, labels: seq<string>): Result<Json, PyError>
    decreases |labels|
  {
    if labels == [] then Ok(item)
    else match ApplyLabels(figiToIsin, item, labels[..|labels| - 1])
      case Err(e) => Err(e)
      case Ok(x) => LabelStep(figiToIsin, x, labels[|labels| - 1])
  }

  function AnnotateItem(figiToIsin: map<string, string>, item: Json): Result<Json, PyError> {
    ApplyLabels(figiToIsin, item, LABELS)
  }

  function ItemAnnotator(figiToIsin: map<string, string>): Json -> Result<Json, PyError> {
    item => AnnotateItem(figiToIsin, item)
  }

  function TradeAnnotator(figiToIsin: map<string, string>): Json -> Result<Json, PyError> {
    trade => SetIsin(figiToIsin, trade)
  }

  /** A for-loop that rewrites every element in place, stopping at the first exception. */
  function MapItems(items: seq<Json>, f: Json -> Result<Json, PyError>): Result<seq<Json>, PyError>
    decreases |items|
  {
    if items == [] then Ok([])
    else match MapItems(items[..|items| - 1], f)
      case Err(e) => Err(e)
      case Ok(xs) => match f(items[|items| - 1])
        case Err(e) => Err(e)
        case Ok(y) => Ok(xs + [y])
  }

  /** Iterating a string yields its one-character strings. */
  function Chars(s: string): seq<Json> {
    seq(|s|, k requires 0 <= k < |s| => Str([s[k]]))
  }

  /** Whether some key of an iterated dictionary makes the body raise (keys are strings). */
  predicate SomeKeyFails(fields: map<string, Json>, f: Json -> Result<Json, PyError>) {
    exists k :: k in fields && f(Str(k)).Err?
  }

  /**
   * `for x in payload: body(x)`. A list's dictionaries are updated in place; strings and
   * dictionary keys are immutable, so iterating them can only raise; other values are not
   * iterable.
   */
  function ForEach(payload: Json, f: Json -> Result<Json, PyError>): Result<Json, PyError> {
    match payload
    case Arr(items) => (match MapItems(items, f)
      case Err(e) => Err(e)
      case Ok(xs) => Ok(Arr(xs)))
    case Str(s) => (match MapItems(Chars(s), f)
      case Err(e) => Err(e)
      case Ok(_) => Ok(payload))
    case Obj(fields) => if SomeKeyFails(fields, f) then Err(TypeError) else Ok(payload)
    case _ => Err(TypeError)
  }

  /** The annotated `response_json['inference']`. */
  function AnnotatedInference(figiToIsin: map<string, string>, payload: Json): Result<Json, PyError> {
    ForEach(payload, ItemAnnotator(figiToIsin))
  }

  /** The annotated `response_json['trade']`. */
  function AnnotatedTrades(figiToIsin: map<string, string>, payload: Json): Result<Json, PyError> {
    ForEach(payload, TradeAnnotator(figiToIsin))
  }

  // ---------------------------------------------------------------- the label loop

  /** Whether an item is one the label loop annotates: a dictionary with a 'price' or 'spread' key. */
  predicate Labelled(item: Json) {
    item.Obj? && ("price" in item.fields || "spread" in item.fields)
  }

  /**
   * What annotating one inference item does: a dictionary with a label key gets 'isin' set from
   * its 'figi' (raising when 'figi' is missing or unhashable); a dictionary without one, a list
   * without a label element and a string without a label substring are kept as they are; any other
   * list or string with a label, and any scalar, raises.
   */
  lemma AnnotateItemSpec(figiToIsin: map<string, string>, item: Json)
    ensures item.Obj? ==>
      (AnnotateItem(figiToIsin, item).Ok? <==>
        (!Labelled(item) || ("figi" in item.fields && Hashable(item.fields["figi"]))))
    ensures Labelled(item) && AnnotateItem(figiToIsin, item).Ok? ==>
      AnnotateItem(figiToIsin, item)
        == Ok(Obj(item.fields["isin" := Str(IsinOf(figiToIsin, item.fields["figi"]).value)]))
    ensures item.Obj? && !Labelled(item) ==> AnnotateItem(figiToIsin, item) == Ok(item)
    ensures item.Arr? ==>
      AnnotateItem(figiToIsin, item) == (if Str("price") in item.items || Str("spread") in item.items then Err(TypeError) else Ok(item))
    ensures item.Str? ==>
      AnnotateItem(figiToIsin, item) == (if Contains(item.s, "price") || Contains(item.s, "spread") then Err(TypeError) else Ok(item))
    ensures !item.Obj? && !item.Arr? && !item.Str? ==> AnnotateItem(figiToIsin, item).Err?
  {
    assert LABELS[..1] == ["price"] && LABELS[..1][..0] == [];
    var first := LabelStep(figiToIsin, item, "price");
    assert ApplyLabels(figiToIsin, item, LABELS[..1]) == first;
    assert AnnotateItem(figiToIsin, item) == (if first.Err? then Err(first.error) else LabelStep(figiToIsin, first.value, "spread"));
    if item.Obj? && first.Ok? && first.value != item {
      var fields := item.fields;
      var isin := Str(IsinOf(figiToIsin, fields["figi"]).value);
      assert first.value.fields == fields["isin" := isin];
      assert fields["isin" := isin]["isin" := isin] == fields["isin" := isin];
    }
  }

  /** Annotating an item that was already annotated changes nothing more. */
  lemma AnnotateItemIdempotent(figiToIsin: map<string, string>, item: Json)
    requires AnnotateItem(figiToIsin, item).Ok?
    ensures AnnotateItem(figiToIsin, AnnotateItem(figiToIsin, item).value) == AnnotateItem(figiToIsin, item)
  {
    AnnotateItemSpec(figiToIsin, item);
    var once := AnnotateItem(figiToIsin, item).value;
    AnnotateItemSpec(figiToIsin, once);
    if Labelled(item) {
      var isin := Str(IsinOf(figiToIsin, item.fields["figi"]).value);
      assert once.fields["figi"] == item.fields["figi"];
      assert once.fields["isin" := isin] == once.fields;
    }
  }

  /**
   * With the dictionaries the OpenFIGI mapping builds, an item carrying the FIGI of a mapped ISIN
   * is annotated with that same ISIN, provided no ISIN and no FIGI repeats among the matches.
   */
  lemma AnnotationRecoversIsin(ms: seq<(string, map<string, string>)>, isin: string, item: Json)
    requires OpenFigi.AllHaveFigi(ms) && OpenFigi.Distinct(OpenFigi.Ids(ms)) && OpenFigi.Distinct(OpenFigi.Figis(ms))
    requires isin in OpenFigi.IsinDicts(ms).0
    requires Labelled(item) && "figi" in item.fields && item.fields["figi"] == Str(OpenFigi.IsinDicts(ms).0[isin])
    ensures AnnotateItem(OpenFigi.IsinDicts(ms).1, item) == Ok(Obj(item.fields["isin" := Str(isin)]))
  {
    OpenFigi.IsinDictsInverse(ms);
    AnnotateItemSpec(OpenFigi.IsinDicts(ms).1, item);
  }

  // ---------------------------------------------------------------- iterating a payload

  /** The in-place loop succeeds exactly when every element's body does, and rewrites each element. */
  lemma {:induction false} MapItemsSpec(items: seq<Json>, f: Json -> Result<Json, PyError>)
    ensures MapItems(items, f).Ok? <==> forall k :: 0 <= k < |items| ==> f(items[k]).Ok?
    ensures MapItems(items, f).Ok? ==>
      && |MapItems(items, f).value| == |items|
      && forall k :: 0 <= k < |items| ==> MapItems(items, f).value[k] == f(items[k]).value
    decreases |items|
  {
    if items != [] {
      var init := items[..|items| - 1];
      MapItemsSpec(init, f);
      assert forall k :: 0 <= k < |init| ==> init[k] == items[k];
    }
  }

  /** The first element's exception is the one raised. */
  lemma {:induction false} MapItemsFirstError(items: seq<Json>, f: Json -> Result<Json, PyError>, k: nat)
    requires k < |items| && f(items[k]).Err?
    requires forall j :: 0 <= j < k ==> f(items[j]).Ok?
    ensures MapItems(items, f) == Err(f(items[k]).error)
    decreases |items|
  {
    var init := items[..|items| - 1];
    if k < |init| {
      assert forall j :: 0 <= j < k ==> init[j] == items[j];
      MapItemsFirstError(init, f, k);
    } else {
      MapItemsSpec(init, f);
      assert forall j :: 0 <= j < |init| ==> init[j] == items[j];
    }
  }

  /**
   * Annotating inference results: a list has each element annotated, a string has no label in
   * any of its one-character strings, a dictionary raises exactly when some key contains a label,
   * and a scalar is not iterable.
   */
  lemma AnnotatedInferenceSpec(figiToIsin: map<string, string>, payload: Json)
    ensures payload.Arr? ==>
      (AnnotatedInference(figiToIsin, payload).Ok? <==>
        forall k :: 0 <= k < |payload.items| ==> AnnotateItem(figiToIsin, payload.items[k]).Ok?)
    ensures payload.Arr? && AnnotatedInference(figiToIsin, payload).Ok? ==>
      AnnotatedInference(figiToIsin, payload).value.Arr?
      && |AnnotatedInference(figiToIsin, payload).value.items| == |payload.items|
      && forall k :: 0 <= k < |payload.items| ==>
        AnnotatedInference(figiToIsin, payload).value.items[k] == AnnotateItem(figiToIsin, payload.items[k]).value
    ensures payload.Str? ==> AnnotatedInference(figiToIsin, payload) == Ok(payload)
    ensures payload.Obj? ==>
      (AnnotatedInference(figiToIsin, payload).Err? <==>
        exists key :: key in payload.fields && (Contains(key, "price") || Contains(key, "spread")))
    ensures payload.Obj? && AnnotatedInference(figiToIsin, payload).Ok? ==> AnnotatedInference(figiToIsin, payload) == Ok(payload)
    ensures !payload.Arr? && !payload.Str? && !payload.Obj? ==> AnnotatedInference(figiToIsin, payload).Err?
  {
    var f := ItemAnnotator(figiToIsin);
    match payload
    case Arr(items) =>
      MapItemsSpec(items, f);
    case Str(s) =>
      MapItemsSpec(Chars(s), f);
      forall k | 0 <= k < |s| ensures f(Chars(s)[k]).Ok? {
        AnnotateItemSpec(figiToIsin, Str([s[k]]));
      }
    case Obj(fields) =>
      forall key | key in fields ensures f(Str(key)).Err? <==> (Contains(key, "price") || Contains(key, "spread")) {
        AnnotateItemSpec(figiToIsin, Str(key));
      }
    case _ =>
  }

  /** Inference annotation is idempotent: a written response annotated again is unchanged. */
  lemma AnnotatedInferenceIdempotent(figiToIsin: map<string, string>, payload: Json)
    requires AnnotatedInference(figiToIsin, payload).Ok?
    ensures AnnotatedInference(figiToIsin, AnnotatedInference(figiToIsin, payload).value)
      == AnnotatedInference(figiToIsin, payload)
  {
    AnnotatedInferenceSpec(figiToIsin, payload);
    var once := AnnotatedInference(figiToIsin, payload).value;
    if payload.Arr? {
      AnnotatedInferenceSpec(figiToIsin, once);
      forall k | 0 <= k < |once.items| ensures AnnotateItem(figiToIsin, once.items[k]) == Ok(once.items[k]) {
        AnnotateItemIdempotent(figiToIsin, payload.items[k]);
      }
      var twice := AnnotatedInference(figiToIsin, once).value;
      assert twice.items == once.items;
    } else {
      assert once == payload;
    }
  }

  /**
   * Annotating trades: a list succeeds exactly when every element is a dictionary with a
   * hashable 'figi', and then each trade gains 'isin' and keeps its other fields; a string or
   * dictionary succeeds only when empty; a scalar is not iterable.
   */
  lemma AnnotatedTradesSpec(figiToIsin: map<string, string>, payload: Json)
    ensures payload.Arr? ==>
      (AnnotatedTrades(figiToIsin, payload).Ok? <==>
        forall k :: 0 <= k < |payload.items| ==>
          payload.items[k].Obj? && "figi" in payload.items[k].fields && Hashable(payload.items[k].fields["figi"]))
    ensures payload.Arr? && AnnotatedTrades(figiToIsin, payload).Ok? ==>
      AnnotatedTrades(figiToIsin, payload).value.Arr?
      && |AnnotatedTrades(figiToIsin, payload).value.items| == |payload.items|
      && forall k :: 0 <= k < |payload.items| ==>
        AnnotatedTrades(figiToIsin, payload).value.items[k]
          == Obj(payload.items[k].fields["isin" := Str(IsinOf(figiToIsin, payload.items[k].fields["figi"]).value)])
    ensures payload.Str? ==> AnnotatedTrades(figiToIsin, payload) == (if payload.s == [] then Ok(payload) else Err(TypeError))
    ensures payload.Obj? ==> AnnotatedTrades(figiToIsin, payload) == (if payload.fields == map[] then Ok(payload) else Err(TypeError))
    ensures !payload.Arr? && !payload.Str? && !payload.Obj? ==> AnnotatedTrades(figiToIsin, payload).Err?
  {
    var f := TradeAnnotator(figiToIsin);
    match payload
    case Arr(items) =>
      MapItemsSpec(items, f);
    case Str(s) =>
      MapItemsSpec(Chars(s), f);
      if s != [] {
        assert f(Chars(s)[0]) == Err(TypeError);
        MapItemsFirstError(Chars(s), f, 0);
      }
    case Obj(fields) =>
      if fields != map[] {
        var key :| key in fields;
        assert f(Str(key)).Err?;
      }
    case _ =>
  }

  // ---------------------------------------------------------------- the loops as written

  /**
   * `for item in payload: for label in labels: if label in item: item['isin'] = ...`, rewriting
   * the elements of a list payload in place.
   */
  method AnnotateInference(figiToIsin: map<string, string>, payload: Json) returns (r: Result<Json, PyError>)
    ensures r == AnnotatedInference(figiToIsin, payload)
  {
    if !payload.Arr? {
      return ForEach(payload, ItemAnnotator(figiToIsin));
    }
    var items := AnnotateItemsInPlace(figiToIsin, payload.items);
    r := if items.Err? then Err(items.error) else Ok(Arr(items.value));
  }

  /** The outer loop over a list payload, rewriting each element in place. */
  method AnnotateItemsInPlace(figiToIsin: map<string, string>, items0: seq<Json>) returns (r: Result<seq<Json>, PyError>)
    ensures r == MapItems(items0, ItemAnnotator(figiToIsin))
  {
    var items := items0;
    var i := 0;
    while i < |items|
      invariant 0 <= i <= |items| && |items| == |items0|
      invariant MapItems(items0[..i], ItemAnnotator(figiToIsin)) == Ok(items[..i])
      invariant items[i..] == items0[i..]
    {
      assert items[i] == items0[i];
      var updated := AnnotateOne(figiToIsin, items[i]);
      if updated.Err? {
        MapItemsAt(items0, ItemAnnotator(figiToIsin), i, items[..i]);
        return Err(updated.error);
      }
      ghost var done := items[..i];
      MapItemsSnoc(items0, ItemAnnotator(figiToIsin), i, done, updated.value);
      items := items[i := updated.value];
      assert items[..i + 1] == done + [updated.value];
      i := i + 1;
    }
    assert items0[..i] == items0 && items[..i] == items;
    r := Ok(items);
  }

  /** The label loop for one item: `for label in labels: if label in item: item['isin'] = ...`. */
  method AnnotateOne(figiToIsin: map<string, string>, item0: Json) returns (r: Result<Json, PyError>)
    ensures r == AnnotateItem(figiToIsin, item0)
  {
    var item := item0;
    var j := 0;
    while j < |LABELS|
      invariant 0 <= j <= |LABELS|
      invariant ApplyLabels(figiToIsin, item0, LABELS[..j]) == Ok(item)
    {
      assert LABELS[..j + 1][..j] == LABELS[..j];
      var hit := PyIn(LABELS[j], item);
      if hit.Err? {
        ApplyLabelsStops(figiToIsin, item0, j);
        return Err(hit.error);
      }
      if hit.value {
        var updated := SetIsin(figiToIsin, item);
        if updated.Err? {
          ApplyLabelsStops(figiToIsin, item0, j);
          return Err(updated.error);
        }
        item := updated.value;
      }
      j := j + 1;
    }
    assert LABELS[..j] == LABELS;
    r := Ok(item);
  }

  /** An exception in the label loop's step j is the item's exception. */
  lemma ApplyLabelsStops(figiToIsin: map<string, string>, item: Json, j: nat)
    requires j < |LABELS| && ApplyLabels(figiToIsin, item, LABELS[..j]).Ok?
    requires LabelStep(figiToIsin, ApplyLabels(figiToIsin, item, LABELS[..j]).value, LABELS[j]).Err?
    ensures AnnotateItem(figiToIsin, item)
      == LabelStep(figiToIsin, ApplyLabels(figiToIsin, item, LABELS[..j]).value, LABELS[j])
  {
    assert LABELS[..j + 1][..j] == LABELS[..j];
    if j == 0 {
      assert LABELS[..2][..1] == LABELS[..1];
      assert LABELS[..2] == LABELS;
    } else {
      assert LABELS[..2] == LABELS;
    }
  }

  /** An element whose body succeeds extends the loop's result by its rewritten value. */
  lemma MapItemsSnoc(items: seq<Json>, f: Json -> Result<Json, PyError>, i: nat, done: seq<Json>, y: Json)
    requires i < |items| && MapItems(items[..i], f) == Ok(done) && f(items[i]) == Ok(y)
    ensures MapItems(items[..i + 1], f) == Ok(done + [y])
  {
    assert items[..i + 1][..i] == items[..i];
  }

  /** An element whose body raises, after elements that did not, makes the whole loop raise. */
  lemma MapItemsAt(items: seq<Json>, f: Json -> Result<Json, PyError>, i: nat, done: seq<Json>)
    requires i < |items| && f(items[i]).Err?
    requires MapItems(items[..i], f) == Ok(done)
    ensures MapItems(items, f) == Err(f(items[i]).error)
  {
    MapItemsSpec(items[..i], f);
    assert forall j :: 0 <= j < i ==> items[..i][j] == items[j];
    MapItemsFirstError(items, f, i);
  }

  /** `for trade in payload: trade['isin'] = figi_to_isin.get(trade['figi'], 'unknown')`. */
  method AnnotateTrades(figiToIsin: map<string, string>, payload: Json) returns (r: Result<Json, PyError>)
    ensures r == AnnotatedTrades(figiToIsin, payload)
  {
    if !payload.Arr? {
      return ForEach(payload, TradeAnnotator(figiToIsin));
    }
    var items := AnnotateTradesInPlace(figiToIsin, payload.items);
    r := if items.Err? then Err(items.error) else Ok(Arr(items.value));
  }

  /** The loop over a list of trades, rewriting each in place. */
  method AnnotateTradesInPlace(figiToIsin: map<string, string>, items0: seq<Json>) returns (r: Result<seq<Json>, PyError>)
    ensures r == MapItems(items0, TradeAnnotator(figiToIsin))
  {
    var items := items0;
    var i := 0;
    while i < |items|
      invariant 0 <= i <= |items| && |items| == |items0|
      invariant MapItems(items0[..i], TradeAnnotator(figiToIsin)) == Ok(items[..i])
      invariant items[i..] == items0[i..]
    {
      assert items[i] == items0[i];
      var updated := SetIsin(figiToIsin, items[i]);
      if updated.Err? {
        MapItemsAt(items0, TradeAnnotator(figiToIsin), i, items[..i]);
        return Err(updated.error);
      }
      ghost var done := items[..i];
      MapItemsSnoc(items0, TradeAnnotator(figiToIsin), i, done, updated.value);
      items := items[i := updated.value];
      assert items[..i + 1] == done + [updated.value];
      i := i + 1;
    }
    assert items0[..i] == items0 && items[..i] == items;
    r := Ok(items);
  }
}
