/**
 * The subscription lists of the two live scripts: every ISIN that OpenFIGI mapped to a non-empty
 * FIGI gets one streaming inference request per combination of side, ATS flag, quantity and label
 * (`itertools.product` order), and, in the trades script, one trade subscription.
 */
module Subscriptions {

  import opened Wrappers
  import opened Requests
  import opened Batching

  const SIDES: seq<Side> := [Bid, Offer]
  const ATS_INDICATORS: seq<Ats> := [Y, N]
  const QUANTITIES: seq<nat> := [10_000, 100_000, 250_000, 500_000, 1_000_000]

  /** `rfq_labels` of the price-variations script, and of the price-and-trades script. */
  const PRICE_SCRIPT_LABELS: seq<Label> := [Spread, Price]
  const TRADES_SCRIPT_LABELS: seq<Label> := [Price]

  /** One `(side, ats, qty, label)` tuple of the product. */
  type Combo = (Side, Ats, nat, Label)

  // ---------------------------------------------------------------- itertools.product

  function QtyCombos(labels: seq<Label>, s: Side, a: Ats): nat -> seq<Combo> {
    q => seq(|labels|, l requires 0 <= l < |labels| => (s, a, q, labels[l]))
  }

  function AtsCombos(qtys: seq<nat>, labels: seq<Label>, s: Side): Ats -> seq<Combo> {
    a => ConcatMap(qtys, QtyCombos(labels, s, a))
  }

  function SideCombos(atss: seq<Ats>, qtys: seq<nat>, labels: seq<Label>): Side -> seq<Combo> {
    s => ConcatMap(atss, AtsCombos(qtys, labels, s))
  }

  /** `itertools.product(sides, ats_indicators, quantities, rfq_labels)`: the last factor varies fastest. */
  function Product(sides: seq<Side>, atss: seq<Ats>, qtys: seq<nat>, labels: seq<Label>): seq<Combo> {
    ConcatMap(sides, SideCombos(atss, qtys, labels))
  }

  lemma AtsCombosLength(qtys: seq<nat>, labels: seq<Label>, s: Side, a: Ats)
    ensures |AtsCombos(qtys, labels, s)(a)| == Offset(|qtys|, |labels|)
  {
    ConcatMapLength(qtys, QtyCombos(labels, s, a), |labels|);
  }

  lemma SideCombosLength(atss: seq<Ats>, qtys: seq<nat>, labels: seq<Label>, s: Side)
    ensures |SideCombos(atss, qtys, labels)(s)| == Offset(|atss|, Offset(|qtys|, |labels|))
  {
    forall k | 0 <= k < |atss| ensures |AtsCombos(qtys, labels, s)(atss[k])| == Offset(|qtys|, |labels|) {
      AtsCombosLength(qtys, labels, s, atss[k]);
    }
    ConcatMapLength(atss, AtsCombos(qtys, labels, s), Offset(|qtys|, |labels|));
  }

  /** The product has one tuple per choice of side, ATS flag, quantity and label. */
  lemma ProductLength(sides: seq<Side>, atss: seq<Ats>, qtys: seq<nat>, labels: seq<Label>)
    ensures |Product(sides, atss, qtys, labels)| == |sides| * (|atss| * (|qtys| * |labels|))
  {
    var m := Offset(|atss|, Offset(|qtys|, |labels|));
    forall k | 0 <= k < |sides| ensures |SideCombos(atss, qtys, labels)(sides[k])| == m {
      SideCombosLength(atss, qtys, labels, sides[k]);
    }
    ConcatMapLength(sides, SideCombos(atss, qtys, labels), m);
    OffsetIsProduct(|qtys|, |labels|);
    OffsetIsProduct(|atss|, |qtys| * |labels|);
    OffsetIsProduct(|sides|, |atss| * (|qtys| * |labels|));
  }

  /** Within one (side, ATS flag) block, position q·|labels| + l holds the q-th quantity and l-th label. */
  lemma AtsCombosAt(qtys: seq<nat>, labels: seq<Label>, s: Side, a: Ats, q: nat, l: nat)
    requires q < |qtys| && l < |labels|
    ensures Offset(q, |labels|) + l < |AtsCombos(qtys, labels, s)(a)|
    ensures AtsCombos(qtys, labels, s)(a)[Offset(q, |labels|) + l] == (s, a, qtys[q], labels[l])
  {
    ConcatMapAt(qtys, QtyCombos(labels, s, a), |labels|, q, l);
  }

  /** Within one side's block, the a-th ATS flag's block starts at a·|qtys|·|labels|. */
  lemma SideCombosAt(atss: seq<Ats>, qtys: seq<nat>, labels: seq<Label>, s: Side, a: nat, q: nat, l: nat)
    requires a < |atss| && q < |qtys| && l < |labels|
    ensures var m2 := Offset(|qtys|, |labels|);
      && Offset(a, m2) + (Offset(q, |labels|) + l) < |SideCombos(atss, qtys, labels)(s)|
      && SideCombos(atss, qtys, labels)(s)[Offset(a, m2) + (Offset(q, |labels|) + l)] == (s, atss[a], qtys[q], labels[l])
  {
    var m2 := Offset(|qtys|, |labels|);
    var f := AtsCombos(qtys, labels, s);
    var j := Offset(q, |labels|) + l;
    forall k | 0 <= k < |atss| ensures |f(atss[k])| == m2 {
      AtsCombosLength(qtys, labels, s, atss[k]);
    }
    AtsCombosAt(qtys, labels, s, atss[a], q, l);
    assert f(atss[a])[j] == (s, atss[a], qtys[q], labels[l]);
    ConcatMapAt(atss, f, m2, a, j);
    assert SideCombos(atss, qtys, labels)(s) == ConcatMap(atss, f);
  }

  /** ProductAt with its position written as nested block offsets. */
  lemma ProductAtOffset(sides: seq<Side>, atss: seq<Ats>, qtys: seq<nat>, labels: seq<Label>, s: nat, a: nat, q: nat, l: nat)
    requires s < |sides| && a < |atss| && q < |qtys| && l < |labels|
    ensures var m2 := Offset(|qtys|, |labels|);
      var i := Offset(s, Offset(|atss|, m2)) + (Offset(a, m2) + (Offset(q, |labels|) + l));
      i < |Product(sides, atss, qtys, labels)| && Product(sides, atss, qtys, labels)[i] == (sides[s], atss[a], qtys[q], labels[l])
  {
    var m2 := Offset(|qtys|, |labels|);
    var m3 := Offset(|atss|, m2);
    forall k | 0 <= k < |sides| ensures |SideCombos(atss, qtys, labels)(sides[k])| == m3 {
      SideCombosLength(atss, qtys, labels, sides[k]);
    }
    SideCombosAt(atss, qtys, labels, sides[s], a, q, l);
    ConcatMapAt(sides, SideCombos(atss, qtys, labels), m3, s, Offset(a, m2) + (Offset(q, |labels|) + l));
  }

  lemma LexIndex(s: nat, a: nat, q: nat, l: nat, na: nat, nq: nat, nl: nat)
    ensures Offset(s, Offset(na, Offset(nq, nl))) + (Offset(a, Offset(nq, nl)) + (Offset(q, nl) + l))
         == ((s * na + a) * nq + q) * nl + l
  {
    OffsetIsProduct(nq, nl);
    OffsetIsProduct(na, nq * nl);
    OffsetIsProduct(s, na * (nq * nl));
    OffsetIsProduct(a, nq * nl);
    OffsetIsProduct(q, nl);
    assert ((s * na + a) * nq + q) * nl == s * (na * (nq * nl)) + a * (nq * nl) + q * nl;
  }

  /**
   * Position ((s·|atss| + a)·|qtys| + q)·|labels| + l of the product holds the s-th side, a-th ATS
   * flag, q-th quantity and l-th label: lexicographic order over the four factors.
   */
  lemma ProductAt(sides: seq<Side>, atss: seq<Ats>, qtys: seq<nat>, labels: seq<Label>, s: nat, a: nat, q: nat, l: nat)
    requires s < |sides| && a < |atss| && q < |qtys| && l < |labels|
    ensures var i := ((s * |atss| + a) * |qtys| + q) * |labels| + l;
      i < |Product(sides, atss, qtys, labels)| && Product(sides, atss, qtys, labels)[i] == (sides[s], atss[a], qtys[q], labels[l])
  {
    ProductAtOffset(sides, atss, qtys, labels, s, a, q, l);
    LexIndex(s, a, q, l, |atss|, |qtys|, |labels|);
  }

  /** The two scripts' products: 2·2·5·2 = 40 tuples with both labels, 2·2·5·1 = 20 with 'price' alone. */
  lemma ScriptProductSizes()
    ensures |Product(SIDES, ATS_INDICATORS, QUANTITIES, PRICE_SCRIPT_LABELS)| == 40
    ensures |Product(SIDES, ATS_INDICATORS, QUANTITIES, TRADES_SCRIPT_LABELS)| == 20
  {
    ProductLength(SIDES, ATS_INDICATORS, QUANTITIES, PRICE_SCRIPT_LABELS);
    ProductLength(SIDES, ATS_INDICATORS, QUANTITIES, TRADES_SCRIPT_LABELS);
  }

  // ---------------------------------------------------------------- the inference list

  /** `figi = isin_to_figi.get(isin)`, skipped when absent or empty (`if not figi`). */
  predicate Mapped(isinToFigi: map<string, string>, isin: string) {
    isin in isinToFigi && isinToFigi[isin] != ""
  }

  /** The dictionary appended for one tuple: subscribe True and no 'timestamp' key. */
  function Live(figi: string, c: Combo): Request {
    Request(c.3, figi, c.2, c.0, c.1, None, true)
  }

  /** The requests for one FIGI, one per product tuple in order. */
  function Variations(figi: string, combos: seq<Combo>): (rs: seq<Request>)
    ensures |rs| == |combos|
  {
    seq(|combos|, k requires 0 <= k < |combos| => Live(figi, combos[k]))
  }

  function VariationsOf(combos: seq<Combo>): string -> seq<Request> {
    figi => Variations(figi, combos)
  }

  /** The requests an ISIN contributes: its FIGI's variations, or none when it is not mapped. */
  function PerIsinOf(isinToFigi: map<string, string>, combos: seq<Combo>): string -> seq<Request> {
    isin => if Mapped(isinToFigi, isin) then Variations(isinToFigi[isin], combos) else []
  }

  /** `inference_list`, ISIN by ISIN. */
  function InferenceList(isins: seq<string>, isinToFigi: map<string, string>, combos: seq<Combo>): seq<Request> {
    ConcatMap(isins, PerIsinOf(isinToFigi, combos))
  }

  /** The FIGIs of the mapped ISINs, in input order. */
  function FigiOf(isinToFigi: map<string, string>): string -> seq<string> {
    isin => if Mapped(isinToFigi, isin) then [isinToFigi[isin]] else []
  }

  function MappedFigis(isins: seq<string>, isinToFigi: map<string, string>): seq<string> {
    ConcatMap(isins, FigiOf(isinToFigi))
  }

  /**
   * The nested loops building `inference_list`: for each mapped ISIN, one request per product
   * tuple, appended in order.
   */
  method BuildInferenceList(isins: seq<string>, isinToFigi: map<string, string>, labels: seq<Label>)
    returns (list: seq<Request>)
    ensures list == InferenceList(isins, isinToFigi, Product(SIDES, ATS_INDICATORS, QUANTITIES, labels))
  {
    var combos := Product(SIDES, ATS_INDICATORS, QUANTITIES, labels);
    list := [];
    var i := 0;
    while i < |isins|
      invariant 0 <= i <= |isins|
      invariant list == InferenceList(isins[..i], isinToFigi, combos)
    {
      ConcatMapStep(isins, PerIsinOf(isinToFigi, combos), i);
      var isin := isins[i];
      if isin in isinToFigi && isinToFigi[isin] != "" {
        var figi := isinToFigi[isin];
        list := AppendVariations(list, figi, combos);
      }
      i := i + 1;
    }
    assert isins[..i] == isins;
  }

  /** The inner loop: one request dictionary per product tuple. */
  method AppendVariations(list0: seq<Request>, figi: string, combos: seq<Combo>) returns (list: seq<Request>)
    ensures list == list0 + Variations(figi, combos)
  {
    list := list0;
    var j := 0;
    while j < |combos|
      invariant 0 <= j <= |combos|
      invariant list == list0 + Variations(figi, combos)[..j]
    {
      assert Variations(figi, combos)[..j + 1] == Variations(figi, combos)[..j] + [Live(figi, combos[j])];
      var (side, ats, qty, rfqLabel) := combos[j];
      list := list + [Request(rfqLabel, figi, qty, side, ats, None, true)];
      j := j + 1;
    }
    assert Variations(figi, combos)[..j] == Variations(figi, combos);
  }

  /**
   * The inference list is the variations of the mapped FIGIs one after another: one block of
   * |combos| requests per mapped ISIN, block k belonging to the k-th mapped FIGI, and every
   * request a live subscription without timestamp.
   */
  lemma InferenceListShape(isins: seq<string>, isinToFigi: map<string, string>, combos: seq<Combo>)
    ensures InferenceList(isins, isinToFigi, combos) == ConcatMap(MappedFigis(isins, isinToFigi), VariationsOf(combos))
    ensures |InferenceList(isins, isinToFigi, combos)| == |MappedFigis(isins, isinToFigi)| * |combos|
    ensures forall r :: r in InferenceList(isins, isinToFigi, combos) ==> r.subscribe && r.timestamp.None?
  {
    var figis := MappedFigis(isins, isinToFigi);
    var list := InferenceList(isins, isinToFigi, combos);
    forall x ensures PerIsinOf(isinToFigi, combos)(x) == ConcatMap(FigiOf(isinToFigi)(x), VariationsOf(combos)) {
      if Mapped(isinToFigi, x) {
        assert ConcatMap([isinToFigi[x]], VariationsOf(combos)) == ConcatMap([], VariationsOf(combos)) + Variations(isinToFigi[x], combos);
      }
    }
    ConcatMapFuse(isins, FigiOf(isinToFigi), VariationsOf(combos), PerIsinOf(isinToFigi, combos));
    ConcatMapLength(figis, VariationsOf(combos), |combos|);
    OffsetIsProduct(|figis|, |combos|);
    forall r | r in list ensures r.subscribe && r.timestamp.None? {
      var k :| 0 <= k < |list| && list[k] == r;
      var b, j := BlockOf(figis, VariationsOf(combos), |combos|, k);
    }
  }

  /** Which block of equally long blocks, and where in it, position k falls. */
  lemma BlockOf<A, B>(xs: seq<A>, f: A -> seq<B>, m: nat, k: nat) returns (i: nat, j: nat)
    requires forall x :: 0 <= x < |xs| ==> |f(xs[x])| == m
    requires k < |ConcatMap(xs, f)|
    ensures i < |xs| && j < m && ConcatMap(xs, f)[k] == f(xs[i])[j]
  {
    ConcatMapLength(xs, f, m);
    i, j := DivMod(k, m, |xs|);
    ConcatMapAt(xs, f, m, i, j);
  }

  /** Division of k by m as block index and offset, with the block index below n when k < n·m. */
  lemma {:induction false} DivMod(k: nat, m: nat, n: nat) returns (i: nat, j: nat)
    requires k < Offset(n, m)
    ensures i < n && j < m && k == Offset(i, m) + j
    decreases n
  {
    assert n > 0;
    if k < Offset(n - 1, m) {
      i, j := DivMod(k, m, n - 1);
    } else {
      i, j := n - 1, k - Offset(n - 1, m);
    }
  }

  // ---------------------------------------------------------------- the trade list

  /** `trade_list`: one subscription with inference per mapped ISIN. */
  function TradeList(isins: seq<string>, isinToFigi: map<string, string>): (ts: seq<TradeSub>)
    ensures |ts| == |MappedFigis(isins, isinToFigi)|
  {
    seq(|MappedFigis(isins, isinToFigi)|, k requires 0 <= k < |MappedFigis(isins, isinToFigi)|
      => TradeSub(MappedFigis(isins, isinToFigi)[k], true, true))
  }

  /** The loop building `trade_list`. */
  method BuildTradeList(isins: seq<string>, isinToFigi: map<string, string>) returns (list: seq<TradeSub>)
    ensures list == TradeList(isins, isinToFigi)
  {
    list := [];
    var i := 0;
    while i < |isins|
      invariant 0 <= i <= |isins|
      invariant list == TradeList(isins[..i], isinToFigi)
    {
      ConcatMapStep(isins, FigiOf(isinToFigi), i);
      var isin := isins[i];
      if isin in isinToFigi && isinToFigi[isin] != "" {
        list := list + [TradeSub(isinToFigi[isin], true, true)];
      }
      i := i + 1;
    }
    assert isins[..i] == isins;
  }

  /**
   * The k-th trade subscription and the k-th block of inference requests are for the same FIGI.
   */
  lemma TradeListMatchesInference(isins: seq<string>, isinToFigi: map<string, string>, combos: seq<Combo>, k: nat, j: nat)
    requires k < |TradeList(isins, isinToFigi)| && j < |combos|
    ensures k * |combos| + j < |InferenceList(isins, isinToFigi, combos)|
    ensures InferenceList(isins, isinToFigi, combos)[k * |combos| + j].figi == TradeList(isins, isinToFigi)[k].figi
  {
    var figis := MappedFigis(isins, isinToFigi);
    InferenceListShape(isins, isinToFigi, combos);
    OffsetIsProduct(k, |combos|);
    ConcatMapAt(figis, VariationsOf(combos), |combos|, k, j);
  }

  /** The mapped FIGIs are exactly the non-empty images of the input ISINs. */
  lemma {:induction false} MappedFigisSpec(isins: seq<string>, isinToFigi: map<string, string>)
    ensures forall f :: f in MappedFigis(isins, isinToFigi) <==>
      exists i :: 0 <= i < |isins| && Mapped(isinToFigi, isins[i]) && isinToFigi[isins[i]] == f
    decreases |isins|
  {
    if isins != [] {
      var init := isins[..|isins| - 1];
      MappedFigisSpec(init, isinToFigi);
      forall f ensures f in MappedFigis(isins, isinToFigi) <==>
        exists i :: 0 <= i < |isins| && Mapped(isinToFigi, isins[i]) && isinToFigi[isins[i]] == f
      {
        if f in MappedFigis(init, isinToFigi) {
          var i :| 0 <= i < |init| && Mapped(isinToFigi, init[i]) && isinToFigi[init[i]] == f;
          assert isins[i] == init[i];
        }
        if exists i :: 0 <= i < |isins| && Mapped(isinToFigi, isins[i]) && isinToFigi[isins[i]] == f {
          var i :| 0 <= i < |isins| && Mapped(isinToFigi, isins[i]) && isinToFigi[isins[i]] == f;
          if i < |init| {
            assert isins[i] == init[i];
          }
        }
      }
    }
  }
}
