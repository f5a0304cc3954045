/**
 * The three accumulators of the service (per order id, per symbol, total)
 * as a value, the effect of one record on them, and what they add up to
 * after a sequence of records.
 */
module Aggregation {
  import opened Wrappers
  import opened JsonRecords
  import opened Pricing

  datatype Totals = Totals(byOrder: map<string, real>, bySymbol: map<string, real>, total: real)

  /** The accumulators as the service starts: empty maps and a zero total. */
  const Empty := Totals(map[], map[], 0.0)

  /** `Map.getOrDefault(key, BigDecimal.ZERO)`. */
  function Lookup(m: map<string, real>, key: string): (v: real)
    ensures key !in m ==> v == 0.0
    ensures key in m ==> v == m[key]
  {
    if key in m then m[key] else 0.0
  }

  /**
   * `map.merge(key, net, BigDecimal::add)` when the key is non-null; a null
   * key leaves the map alone.
   */
  function MergeAdd(m: map<string, real>, key: Option<string>, net: real): (r: map<string, real>)
    ensures key.None? ==> r == m
    ensures key.Some? ==> r.Keys == m.Keys + {key.value} && r[key.value] == Lookup(m, key.value) + net
    ensures forall k :: k in m && key != Some(k) ==> k in r && r[k] == m[k]
  {
    match key
    case None => m
    case Some(k) => m[k := if k in m then m[k] + net else net]
  }

  /** The state after `processExecution(rec)`; a skipped or failed record changes nothing. */
  function Step(t: Totals, rec: Record, parse: DecimalParser): (t': Totals)
    ensures t'.total == t.total + Contribution(rec, parse)
    ensures !Price(rec, parse).Priced? ==> t' == t
  {
    match Price(rec, parse)
    case Priced(net) =>
      Totals(MergeAdd(t.byOrder, AsText(rec, "orderId"), net),
             MergeAdd(t.bySymbol, AsText(rec, "symbol"), net),
             t.total + net)
    case _ => t
  }

  /** The non-null values of `field` across the records of `h`. */
  ghost function KeysOf(h: seq<Record>, field: string): set<string> {
    set i | 0 <= i < |h| && AsText(h[i], field).Some? :: AsText(h[i], field).value
  }

  /** The accumulators after processing `h` in order, starting from `Empty`. */
  function Replay(h: seq<Record>, parse: DecimalParser): (t: Totals)
    decreases |h|
  {
    if h == [] then Empty else Step(Replay(h[..|h| - 1], parse), h[|h| - 1], parse)
  }

  /**
   * Entries are created only by contributions: every per-order and
   * per-symbol key is the order id or symbol of a record of the history.
   */
  lemma {:induction false} ReplayKeys(h: seq<Record>, parse: DecimalParser)
    ensures Replay(h, parse).byOrder.Keys <= KeysOf(h, "orderId")
    ensures Replay(h, parse).bySymbol.Keys <= KeysOf(h, "symbol")
    decreases |h|
  {
    if h != [] {
      var prefix := h[..|h| - 1];
      ReplayKeys(prefix, parse);
      assert KeysOf(prefix, "orderId") <= KeysOf(h, "orderId") by {
        forall k | k in KeysOf(prefix, "orderId") ensures k in KeysOf(h, "orderId") {
          var i :| 0 <= i < |prefix| && AsText(prefix[i], "orderId") == Some(k);
          assert h[i] == prefix[i];
        }
      }
      assert KeysOf(prefix, "symbol") <= KeysOf(h, "symbol") by {
        forall k | k in KeysOf(prefix, "symbol") ensures k in KeysOf(h, "symbol") {
          var i :| 0 <= i < |prefix| && AsText(prefix[i], "symbol") == Some(k);
          assert h[i] == prefix[i];
        }
      }
      var last := |h| - 1;
      assert AsText(h[last], "orderId").Some? ==> AsText(h[last], "orderId").value in KeysOf(h, "orderId");
      assert AsText(h[last], "symbol").Some? ==> AsText(h[last], "symbol").value in KeysOf(h, "symbol");
    }
  }

  /** Processing one more record is one more `Step`. */
  lemma ReplaySnoc(h: seq<Record>, rec: Record, parse: DecimalParser)
    ensures Replay(h + [rec], parse) == Step(Replay(h, parse), rec, parse)
  {
    assert (h + [rec])[..|h|] == h;
  }

  /** What one record adds to the total: its net PnL if priced, otherwise nothing. */
  function Contribution(rec: Record, parse: DecimalParser): (amount: real) {
    match Price(rec, parse)
    case Priced(net) => net
    case _ => 0.0
  }

  /** What one record adds to the entry `id` of the map keyed by `field`. */
  function ContributionTo(rec: Record, field: string, id: string, parse: DecimalParser): (amount: real) {
    if AsText(rec, field) == Some(id) then Contribution(rec, parse) else 0.0
  }

  /** The net PnL of all priced records of `h`. */
  function SumNet(h: seq<Record>, parse: DecimalParser): (sum: real)
    decreases |h|
  {
    if h == [] then 0.0 else SumNet(h[..|h| - 1], parse) + Contribution(h[|h| - 1], parse)
  }

  /** The net PnL of the priced records of `h` whose `field` is exactly `id`. */
  function SumFor(h: seq<Record>, field: string, id: string, parse: DecimalParser): (sum: real)
    decreases |h|
  {
    if h == [] then 0.0 else SumFor(h[..|h| - 1], field, id, parse) + ContributionTo(h[|h| - 1], field, id, parse)
  }

  /** A skipped or failed record leaves all three accumulators exactly as they were. */
  lemma UnpricedStepUnchanged(t: Totals, rec: Record, parse: DecimalParser)
    requires !Price(rec, parse).Priced?
    ensures Step(t, rec, parse) == t
  {
  }

  /**
   * A priced record adds its net PnL to the total, to the entry of its order
   * id and to the entry of its symbol (each only when non-null); every other
   * entry keeps its value.
   */
  lemma PricedStep(t: Totals, rec: Record, parse: DecimalParser, net: real)
    requires Price(rec, parse) == Priced(net)
    ensures Step(t, rec, parse).total == t.total + net
    ensures forall id :: Lookup(Step(t, rec, parse).byOrder, id)
                         == Lookup(t.byOrder, id) + (if AsText(rec, "orderId") == Some(id) then net else 0.0)
    ensures forall id :: Lookup(Step(t, rec, parse).bySymbol, id)
                         == Lookup(t.bySymbol, id) + (if AsText(rec, "symbol") == Some(id) then net else 0.0)
    ensures AsText(rec, "orderId").None? ==> Step(t, rec, parse).byOrder == t.byOrder
    ensures AsText(rec, "symbol").None? ==> Step(t, rec, parse).bySymbol == t.bySymbol
  {
  }

  /** Every lookup after one step is the lookup before plus the record's contribution to that key. */
  lemma StepLookup(t: Totals, rec: Record, parse: DecimalParser, id: string)
    ensures Step(t, rec, parse).total == t.total + Contribution(rec, parse)
    ensures Lookup(Step(t, rec, parse).byOrder, id) == Lookup(t.byOrder, id) + ContributionTo(rec, "orderId", id, parse)
    ensures Lookup(Step(t, rec, parse).bySymbol, id) == Lookup(t.bySymbol, id) + ContributionTo(rec, "symbol", id, parse)
  {
  }

  /**
   * A record priced at zero leaves every value unchanged, though it may
   * create a zero-valued entry.
   */
  lemma ZeroNetKeepsValues(t: Totals, rec: Record, parse: DecimalParser)
    requires Price(rec, parse) == Priced(0.0)
    ensures Step(t, rec, parse).total == t.total
    ensures forall id :: Lookup(Step(t, rec, parse).byOrder, id) == Lookup(t.byOrder, id)
    ensures forall id :: Lookup(Step(t, rec, parse).bySymbol, id) == Lookup(t.bySymbol, id)
  {
  }

  /**
   * After replaying `h`, the total is the net PnL of its priced records, and
   * each getter value is the net PnL of the priced records carrying that key.
   */
  lemma {:induction false} ReplaySums(h: seq<Record>, parse: DecimalParser, id: string)
    ensures Replay(h, parse).total == SumNet(h, parse)
    ensures Lookup(Replay(h, parse).byOrder, id) == SumFor(h, "orderId", id, parse)
    ensures Lookup(Replay(h, parse).bySymbol, id) == SumFor(h, "symbol", id, parse)
    decreases |h|
  {
    if h != [] {
      ReplaySums(h[..|h| - 1], parse, id);
      StepLookup(Replay(h[..|h| - 1], parse), h[|h| - 1], parse, id);
    }
  }

  /** Sums over records processed one batch after another add up. */
  lemma {:induction false} SumsAppend(h: seq<Record>, p: seq<Record>, parse: DecimalParser, field: string, id: string)
    ensures SumNet(h + p, parse) == SumNet(h, parse) + SumNet(p, parse)
    ensures SumFor(h + p, field, id, parse) == SumFor(h, field, id, parse) + SumFor(p, field, id, parse)
    decreases |p|
  {
    if p == [] {
      assert h + p == h;
    } else {
      var q := p[..|p| - 1];
      assert (h + p)[..|h + p| - 1] == h + q;
      assert (h + p)[|h + p| - 1] == p[|p| - 1];
      SumsAppend(h, q, parse, field, id);
    }
  }

  /**
   * Processing `p` after `h` adds the sums over `p` to the total and to
   * every per-order and per-symbol value.
   */
  lemma ReplayAppend(h: seq<Record>, p: seq<Record>, parse: DecimalParser, id: string)
    ensures Replay(h + p, parse).total == Replay(h, parse).total + SumNet(p, parse)
    ensures Lookup(Replay(h + p, parse).byOrder, id) == Lookup(Replay(h, parse).byOrder, id) + SumFor(p, "orderId", id, parse)
    ensures Lookup(Replay(h + p, parse).bySymbol, id) == Lookup(Replay(h, parse).bySymbol, id) + SumFor(p, "symbol", id, parse)
  {
    ReplaySums(h, parse, id);
    ReplaySums(h + p, parse, id);
    SumsAppend(h, p, parse, "orderId", id);
    SumsAppend(h, p, parse, "symbol", id);
  }

  /** `ReplayAppend` for every key at once. */
  lemma ReplayAppendAll(h: seq<Record>, p: seq<Record>, parse: DecimalParser)
    ensures Replay(h + p, parse).total == Replay(h, parse).total + SumNet(p, parse)
    ensures forall id :: Lookup(Replay(h + p, parse).byOrder, id) == Lookup(Replay(h, parse).byOrder, id) + SumFor(p, "orderId", id, parse)
    ensures forall id :: Lookup(Replay(h + p, parse).bySymbol, id) == Lookup(Replay(h, parse).bySymbol, id) + SumFor(p, "symbol", id, parse)
  {
    ReplayAppend(h, p, parse, "");
    forall id
      ensures Lookup(Replay(h + p, parse).byOrder, id) == Lookup(Replay(h, parse).byOrder, id) + SumFor(p, "orderId", id, parse)
      ensures Lookup(Replay(h + p, parse).bySymbol, id) == Lookup(Replay(h, parse).bySymbol, id) + SumFor(p, "symbol", id, parse)
    {
      ReplayAppend(h, p, parse, id);
    }
  }

  /** Picks some key of a non-empty map, the same one every time for the same map. */
  ghost function PickKey(m: map<string, real>): (k: string)
    requires m != map[]
    ensures k in m
  {
    var k :| k in m; k
  }

  /** The sum of the values of a map. */
  ghost function MapSum(m: map<string, real>): real
    decreases m.Keys
  {
    if m == map[] then 0.0 else var k := PickKey(m); m[k] + MapSum(m - {k})
  }

  /** The sum does not depend on which key is taken out first. */
  lemma {:induction false} MapSumRemove(m: map<string, real>, k: string)
    requires k in m
    ensures MapSum(m) == m[k] + MapSum(m - {k})
    decreases m.Keys
  {
    var j := PickKey(m);
    if j != k {
      MapSumRemove(m - {j}, k);
      MapSumRemove(m - {k}, j);
      assert m - {j} - {k} == m - {k} - {j};
    }
  }

  /** Merging `net` under a non-null key raises the sum of the map's values by `net`. */
  lemma MapSumMergeAdd(m: map<string, real>, key: string, net: real)
    ensures MapSum(MergeAdd(m, Some(key), net)) == MapSum(m) + net
  {
    var r := MergeAdd(m, Some(key), net);
    MapSumRemove(r, key);
    assert r - {key} == m - {key};
    if key in m {
      MapSumRemove(m, key);
    } else {
      assert m - {key} == m;
    }
  }

  /** Every priced record of `h` carries both a non-null order id and a non-null symbol. */
  predicate FullyKeyed(h: seq<Record>, parse: DecimalParser) {
    forall i :: 0 <= i < |h| && Price(h[i], parse).Priced? ==>
      AsText(h[i], "orderId").Some? && AsText(h[i], "symbol").Some?
  }

  /**
   * When every priced record carried both keys, the total equals the sum of
   * the per-order values and the sum of the per-symbol values.
   */
  lemma {:induction false} FullyKeyedTotalsAgree(h: seq<Record>, parse: DecimalParser)
    requires FullyKeyed(h, parse)
    ensures Replay(h, parse).total == MapSum(Replay(h, parse).byOrder)
    ensures Replay(h, parse).total == MapSum(Replay(h, parse).bySymbol)
    decreases |h|
  {
    if h != [] {
      var prefix, rec := h[..|h| - 1], h[|h| - 1];
      assert FullyKeyed(prefix, parse) by {
        forall i | 0 <= i < |prefix| && Price(prefix[i], parse).Priced?
          ensures AsText(prefix[i], "orderId").Some? && AsText(prefix[i], "symbol").Some?
        {
          assert prefix[i] == h[i];
        }
      }
      FullyKeyedTotalsAgree(prefix, parse);
      var t := Replay(prefix, parse);
      match Price(rec, parse)
      case Priced(net) =>
        MapSumMergeAdd(t.byOrder, AsText(rec, "orderId").value, net);
        MapSumMergeAdd(t.bySymbol, AsText(rec, "symbol").value, net);
      case _ =>
    }
  }

  /**
   * A priced record without an order id still moves the total and creates no
   * per-order entry, so the total and the per-order sum part ways.
   */
  lemma UnkeyedRecordDiverges(parse: DecimalParser)
    requires parse("1") == Some(1.0)
    ensures var h := [map["category" := JText("spot"), "side" := JText("Sell"), "execValue" := JText("1")]];
            Replay(h, parse).total == 1.0 && Replay(h, parse).byOrder == map[]
  {
    var h := [map["category" := JText("spot"), "side" := JText("Sell"), "execValue" := JText("1")]];
    JavaStrings.EqualsIgnoreCaseReflexive("spot");
    JavaStrings.EqualsIgnoreCaseReflexive("Sell");
    assert h[..0] == [];
  }
}
