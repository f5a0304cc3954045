/**
 * `BybitExecutionPnlService`: the websocket message handler, the per-record
 * merge into the three accumulators, and the three getters.
 */
module ExecutionService {
  import opened Wrappers
  import opened JsonRecords
  import opened Pricing
  import opened Aggregation

  /** The topic node is present and renders as exactly "execution". */
  predicate IsExecutionTopic(topic: Option<JsonValue>)
    ensures IsExecutionTopic(topic) <==> topic == Some(JText("execution"))
  {
    topic.Some? && NodeText(topic.value) == "execution"
  }

  /**
   * The records of a batch that are handed to `processExecution` and return
   * normally: the longest prefix with no failing record. A failing record
   * throws out of the loop, and the records after it are not processed.
   */
  function UntilFailure(recs: seq<Record>, parse: DecimalParser): (p: seq<Record>)
    ensures p <= recs
    ensures forall i :: 0 <= i < |p| ==> !Price(p[i], parse).Failed?
    ensures |p| < |recs| ==> Price(recs[|p|], parse).Failed?
    decreases |recs|
  {
    if recs == [] || Price(recs[0], parse).Failed? then []
    else [recs[0]] + UntilFailure(recs[1..], parse)
  }

  /** The failure-free prefix is determined by where the first failure is. */
  lemma UntilFailureAt(recs: seq<Record>, parse: DecimalParser, k: nat)
    requires k <= |recs|
    requires forall i :: 0 <= i < k ==> !Price(recs[i], parse).Failed?
    requires k < |recs| ==> Price(recs[k], parse).Failed?
    ensures UntilFailure(recs, parse) == recs[..k]
  {
  }

  /** Taking one more record of a batch extends the processed prefix by that record. */
  lemma PrefixGrows(h: seq<Record>, data: seq<Record>, i: nat)
    requires i < |data|
    ensures h + data[..i] + [data[i]] == h + data[..i + 1]
  {
    assert data[..i + 1] == data[..i] + [data[i]];
  }

  /** The records of a message that reach the accumulators' history. */
  function ProcessedRecords(msg: Message, parse: DecimalParser): (p: seq<Record>)
    ensures !IsExecutionTopic(msg.topic) || msg.data.None? ==> p == []
    ensures IsExecutionTopic(msg.topic) && msg.data.Some? ==> p <= msg.data.value
  {
    if !IsExecutionTopic(msg.topic) then []
    else match msg.data
      case None => []
      case Some(data) => UntilFailure(data, parse)
  }

  /** A frame on any other topic, or with no topic, contributes no records. */
  lemma OtherTopicIgnored(msg: Message, parse: DecimalParser)
    requires msg.topic.None? || msg.topic.value == JNull || msg.topic.value.text != "execution"
    ensures ProcessedRecords(msg, parse) == []
  {
  }

  /**
   * A spot buy with no `execValue` stops the message: a priced record after
   * it never reaches the accumulators.
   */
  lemma FailureAbortsRestOfMessage(parse: DecimalParser)
    requires parse("5") == Some(5.0)
    ensures var bad := map["category" := JText("spot"), "side" := JText("Buy")];
            var good := map["category" := JText("linear"), "execPnl" := JText("5")];
            Price(good, parse) == Priced(5.0)
            && ProcessedRecords(Message(Some(JText("execution")), Some([bad, good])), parse) == []
  {
    var bad := map["category" := JText("spot"), "side" := JText("Buy")];
    var good := map["category" := JText("linear"), "execPnl" := JText("5")];
    JavaStrings.EqualsIgnoreCaseReflexive("spot");
    JavaStrings.EqualsIgnoreCaseReflexive("Buy");
    assert !JavaStrings.EqualsIgnoreCase("spot", "linear");
    assert Price(bad, parse) == Failed;
  }

  class BybitExecutionPnlService {
    /** The decimal parser standing for `new BigDecimal(String)`. */
    const parseDecimal: DecimalParser

    var pnlByOrderId: map<string, real>
    var pnlBySymbol: map<string, real>
    var totalPnl: real

    /** The records whose `processExecution` returned normally, in order. */
    ghost var history: seq<Record>

    function State(): Totals
      reads this
    {
      Totals(pnlByOrderId, pnlBySymbol, totalPnl)
    }

    /** The accumulators hold exactly what replaying the history produces. */
    ghost predicate Valid()
      reads this
    {
      State() == Replay(history, parseDecimal)
    }

    constructor (parseDecimal: DecimalParser)
      ensures Valid() && history == [] && this.parseDecimal == parseDecimal
      ensures pnlByOrderId == map[] && pnlBySymbol == map[] && totalPnl == 0.0
    {
      this.parseDecimal := parseDecimal;
      pnlByOrderId := map[];
      pnlBySymbol := map[];
      totalPnl := 0.0;
      history := [];
    }

    /**
     * Prices one record and merges a priced result; `failed` reports the
     * exception of a spot trade without `execValue`.
     */
    method ProcessExecution(rec: Record) returns (failed: bool)
      requires Valid()
      modifies this
      ensures Valid()
      ensures failed <==> Price(rec, parseDecimal).Failed?
      ensures history == if failed then old(history) else old(history) + [rec]
      ensures State() == Step(old(State()), rec, parseDecimal)
    {
      var outcome := Price(rec, parseDecimal);
      failed := outcome.Failed?;
      if outcome.Priced? {
        var netPnl := outcome.net;
        var orderId := AsText(rec, "orderId");
        var symbol := AsText(rec, "symbol");
        if orderId.Some? {
          pnlByOrderId := MergeAdd(pnlByOrderId, orderId, netPnl);
        }
        if symbol.Some? {
          pnlBySymbol := MergeAdd(pnlBySymbol, symbol, netPnl);
        }
        totalPnl := totalPnl + netPnl;
      }
      assert State() == Step(old(State()), rec, parseDecimal);
      if !failed {
        ReplaySnoc(history, rec, parseDecimal);
        history := history + [rec];
      }
    }

    /**
     * Handles one decoded frame: frames on other topics are ignored, and the
     * records of an execution frame are processed in order until one fails.
     */
    method OnWsMessage(msg: Message)
      requires Valid()
      modifies this
      ensures Valid()
      ensures history == old(history) + ProcessedRecords(msg, parseDecimal)
      ensures !IsExecutionTopic(msg.topic) ==> State() == old(State())
      ensures totalPnl == old(totalPnl) + SumNet(ProcessedRecords(msg, parseDecimal), parseDecimal)
      ensures forall id :: Lookup(pnlByOrderId, id)
                           == Lookup(old(pnlByOrderId), id) + SumFor(ProcessedRecords(msg, parseDecimal), "orderId", id, parseDecimal)
      ensures forall id :: Lookup(pnlBySymbol, id)
                           == Lookup(old(pnlBySymbol), id) + SumFor(ProcessedRecords(msg, parseDecimal), "symbol", id, parseDecimal)
    {
      ghost var before := history;
      if !IsExecutionTopic(msg.topic) || msg.data.None? {
        assert before + [] == before;
        assert SumNet([], parseDecimal) == 0.0;
        return;
      }
      var data := msg.data.value;
      var i := 0;
      var aborted := false;
      while i < |data| && !aborted
        invariant 0 <= i <= |data|
        invariant Valid()
        invariant history == before + data[..i]
        invariant forall j :: 0 <= j < i ==> !Price(data[j], parseDecimal).Failed?
        invariant aborted ==> i < |data| && Price(data[i], parseDecimal).Failed?
        decreases |data| - i, !aborted
      {
        var failed := ProcessExecution(data[i]);
        if failed {
          aborted := true;
        } else {
          PrefixGrows(before, data, i);
          i := i + 1;
        }
      }
      UntilFailureAt(data, parseDecimal, i);
      assert ProcessedRecords(msg, parseDecimal) == data[..i];
      ReplayAppendAll(before, data[..i], parseDecimal);
    }

    /** `getRealisedPnlForOrder`: zero for an unknown order id. */
    function RealisedPnlForOrder(orderId: string): (r: real)
      reads this
      requires Valid()
      ensures orderId !in pnlByOrderId ==> r == 0.0
      ensures r == SumFor(history, "orderId", orderId, parseDecimal)
    {
      ReplaySums(history, parseDecimal, orderId);
      Lookup(pnlByOrderId, orderId)
    }

    /** `getRealisedPnlForSymbol`: zero for an unknown symbol. */
    function RealisedPnlForSymbol(symbol: string): (r: real)
      reads this
      requires Valid()
      ensures symbol !in pnlBySymbol ==> r == 0.0
      ensures r == SumFor(history, "symbol", symbol, parseDecimal)
    {
      ReplaySums(history, parseDecimal, symbol);
      Lookup(pnlBySymbol, symbol)
    }

    /** `getTotalRealisedPnl`. */
    function TotalRealisedPnl(): (r: real)
      reads this
      requires Valid()
      ensures r == SumNet(history, parseDecimal)
    {
      ReplaySums(history, parseDecimal, "");
      totalPnl
    }
  }
}
