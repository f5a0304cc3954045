/**
 * The pricing branch of `processExecution`: the net realised PnL of one
 * execution record, or the decision to skip it.
 */
module Pricing {
  import opened Wrappers
  import opened JavaStrings
  import opened JsonRecords

  /**
   * What pricing one record yields. `Failed` is the spot Buy or Sell whose
   * `execValue` is absent: the source dereferences null there and the
   * exception leaves `processExecution` before anything is merged.
   */
  datatype Outcome = Priced(net: real) | Skipped | Failed

  /** The fee after normalisation: an absent fee counts as zero. */
  function FeeOf(rec: Record, parse: DecimalParser): (fee: real)
    ensures AsBig(rec, "execFee", parse).None? ==> fee == 0.0
    ensures AsBig(rec, "execFee", parse).Some? ==> parse(rec["execFee"].text) == Some(fee)
  {
    AsBig(rec, "execFee", parse).GetOr(0.0)
  }

  /** `"spot".equalsIgnoreCase(category)`; a null category is not spot. */
  predicate IsSpot(rec: Record)
    ensures IsSpot(rec) ==> AsText(rec, "category").Some? && |AsText(rec, "category").value| == 4
  {
    LiteralEqualsIgnoreCase("spot", AsText(rec, "category"))
  }

  /**
   * A record is spot exactly when its category is text of four characters,
   * each one of Java's spellings of the letters of "spot".
   */
  lemma SpotSpellings(rec: Record)
    ensures IsSpot(rec) <==>
              "category" in rec && rec["category"].JText? && |rec["category"].text| == 4
              && forall i :: 0 <= i < 4 ==> rec["category"].text[i] in Spellings("spot"[i])
  {
    if AsText(rec, "category").Some? {
      WordMatches("spot", AsText(rec, "category").value);
    }
  }

  /** Derivative-like records report PnL; spot records are priced by signed notional. */
  function Price(rec: Record, parse: DecimalParser): (r: Outcome)
    ensures !IsSpot(rec) ==> (r.Priced? <==> AsBig(rec, "execPnl", parse).Some?)
    ensures r.Failed? ==> IsSpot(rec) && AsBig(rec, "execValue", parse).None?
    ensures r.Priced? && IsSpot(rec) ==> AsBig(rec, "execValue", parse).Some?
  {
    var fee := FeeOf(rec, parse);
    if !IsSpot(rec) then
      match AsBig(rec, "execPnl", parse)
      case None => Skipped
      case Some(pnl) => Priced(pnl - fee)
    else if LiteralEqualsIgnoreCase("Sell", AsText(rec, "side")) then
      match AsBig(rec, "execValue", parse)
      case None => Failed
      case Some(value) => Priced(value - fee)
    else if LiteralEqualsIgnoreCase("Buy", AsText(rec, "side")) then
      match AsBig(rec, "execValue", parse)
      case None => Failed
      case Some(value) => Priced(-value - fee)
    else
      Skipped
  }

  /** The fee field is missing, JSON null, empty, or text the parser rejects. */
  predicate FeeUnusable(rec: Record, parse: DecimalParser) {
    || "execFee" !in rec
    || rec["execFee"] == JNull
    || rec["execFee"] == JText("")
    || (rec["execFee"].JText? && parse(rec["execFee"].text).None?)
  }

  /**
   * An unusable fee counts as zero, and the record is priced exactly as if it
   * had no fee field at all.
   */
  lemma UnusableFeeIsZero(rec: Record, parse: DecimalParser)
    requires FeeUnusable(rec, parse)
    ensures FeeOf(rec, parse) == 0.0
    ensures Price(rec, parse) == Price(rec - {"execFee"}, parse)
  {
    var bare := rec - {"execFee"};
    assert AsText(bare, "category") == AsText(rec, "category");
    assert AsText(bare, "side") == AsText(rec, "side");
    assert AsBig(bare, "execPnl", parse) == AsBig(rec, "execPnl", parse);
    assert AsBig(bare, "execValue", parse) == AsBig(rec, "execValue", parse);
  }

  /** A record that is not spot (a null category is not) with no usable `execPnl` is skipped. */
  lemma DerivativeWithoutPnlSkipped(rec: Record, parse: DecimalParser)
    requires !IsSpot(rec)
    requires AsBig(rec, "execPnl", parse).None?
    ensures Price(rec, parse) == Skipped
  {
  }

  /** A record that is not spot and has `execPnl` nets exactly `execPnl - execFee`. */
  lemma DerivativeNet(rec: Record, parse: DecimalParser, pnl: real)
    requires !IsSpot(rec)
    requires AsBig(rec, "execPnl", parse) == Some(pnl)
    ensures Price(rec, parse) == Priced(pnl - FeeOf(rec, parse))
  {
  }

  /** A spot sell nets `execValue - execFee`. */
  lemma SpotSellNet(rec: Record, parse: DecimalParser, value: real)
    requires IsSpot(rec) && LiteralEqualsIgnoreCase("Sell", AsText(rec, "side"))
    requires AsBig(rec, "execValue", parse) == Some(value)
    ensures Price(rec, parse) == Priced(value - FeeOf(rec, parse))
  {
  }

  /** A spot buy nets `-execValue - execFee`. */
  lemma SpotBuyNet(rec: Record, parse: DecimalParser, value: real)
    requires IsSpot(rec) && LiteralEqualsIgnoreCase("Buy", AsText(rec, "side"))
    requires AsBig(rec, "execValue", parse) == Some(value)
    ensures Price(rec, parse) == Priced(-value - FeeOf(rec, parse))
  {
    SellAndBuyDisjoint(AsText(rec, "side"));
  }

  /** A spot record whose side is null or neither Buy nor Sell is skipped. */
  lemma SpotOtherSideSkipped(rec: Record, parse: DecimalParser)
    requires IsSpot(rec)
    requires !LiteralEqualsIgnoreCase("Sell", AsText(rec, "side"))
    requires !LiteralEqualsIgnoreCase("Buy", AsText(rec, "side"))
    ensures Price(rec, parse) == Skipped
  {
  }

  /** A spot Buy or Sell without a usable `execValue` fails, whatever its fee. */
  lemma SpotWithoutValueFails(rec: Record, parse: DecimalParser)
    requires IsSpot(rec)
    requires LiteralEqualsIgnoreCase("Sell", AsText(rec, "side")) || LiteralEqualsIgnoreCase("Buy", AsText(rec, "side"))
    requires AsBig(rec, "execValue", parse).None?
    ensures Price(rec, parse) == Failed
  {
  }

  /** Only a spot Buy or Sell can fail; every other record is priced or skipped. */
  lemma FailureOnlyOnSpotTrade(rec: Record, parse: DecimalParser)
    ensures Price(rec, parse).Failed? <==>
              IsSpot(rec) && AsBig(rec, "execValue", parse).None?
              && (LiteralEqualsIgnoreCase("Sell", AsText(rec, "side")) || LiteralEqualsIgnoreCase("Buy", AsText(rec, "side")))
  {
  }

  /** A derivative fill `{category: "linear", execPnl: "10.5", execFee: "0.2"}` nets 10.3. */
  lemma LinearExample(parse: DecimalParser)
    requires parse("10.5") == Some(10.5) && parse("0.2") == Some(0.2)
    ensures Price(map["category" := JText("linear"), "execPnl" := JText("10.5"), "execFee" := JText("0.2")], parse)
            == Priced(10.3)
  {
    var rec := map["category" := JText("linear"), "execPnl" := JText("10.5"), "execFee" := JText("0.2")];
    assert AsText(rec, "category") == Some("linear");
    assert !EqualsIgnoreCase("spot", "linear");
  }

  /** A spot sell `{category: "spot", side: "Sell", execValue: "100", execFee: "0.1"}` nets 99.9. */
  lemma SpotSellExample(parse: DecimalParser)
    requires parse("100") == Some(100.0) && parse("0.1") == Some(0.1)
    ensures Price(map["category" := JText("spot"), "side" := JText("Sell"), "execValue" := JText("100"), "execFee" := JText("0.1")], parse)
            == Priced(99.9)
  {
    EqualsIgnoreCaseReflexive("spot");
    EqualsIgnoreCaseReflexive("Sell");
  }

  /** The same fill as a buy nets -100.1; without a fee field it nets -100. */
  lemma SpotBuyExample(parse: DecimalParser)
    requires parse("100") == Some(100.0) && parse("0.1") == Some(0.1)
    ensures Price(map["category" := JText("spot"), "side" := JText("Buy"), "execValue" := JText("100"), "execFee" := JText("0.1")], parse)
            == Priced(-100.1)
    ensures Price(map["category" := JText("spot"), "side" := JText("Buy"), "execValue" := JText("100")], parse)
            == Priced(-100.0)
  {
    EqualsIgnoreCaseReflexive("spot");
    EqualsIgnoreCaseReflexive("Buy");
    SellAndBuyDisjoint(Some("Buy"));
  }
}
