/** Worked examples of the valuation, the pie aggregation, the
    deduplication of fund metadata and the batching, on concrete inputs. */
module Scenarios {
  import opened Common
  import opened Money
  import opened FundCalculator
  import opened DocStore
  import opened MigrateData

  /** 100 shares bought at 1.0000 and quoted at 1.1000: market value
      110, cost value 100, profit 10, return rate 10 percent, a gain. */
  lemma QuotedHolding()
    ensures var v := Value(Holding("F1", Some(100.0), Some(1.0), []),
                           map["F1" := Quote(1.1, 0.5, "2024-01-02")]).value;
      && v.marketValue == 110.0 && CostValue(v) == 100.0 && v.profit == 10.0
      && v.returnRate == 10.0 && v.isGain
      && v.name == UnknownFundName && v.fundType == OtherType
  {
    var v := Value(Holding("F1", Some(100.0), Some(1.0), []), map["F1" := Quote(1.1, 0.5, "2024-01-02")]).value;
    assert v.profit / CostValue(v) == 0.1;
  }

  /** 50 shares at 2.0000 without a quote: the price falls back to the
      cost, so profit and return rate are 0. */
  lemma UnquotedHolding()
    ensures var v := Value(Holding("F2", Some(50.0), Some(2.0), []), map[]).value;
      v.price == 2.0 && v.marketValue == 100.0 && v.profit == 0.0 && v.returnRate == 0.0
  {
  }

  /** A holding whose share count is absent fails the whole call. */
  lemma MissingShares()
    ensures Dashboard([Holding("F1", Some(1.0), Some(1.0), []), Holding("F3", None, Some(1.0), [])], map[])
            == Err(InvalidHolding("F3"))
  {
    var h1, h3 := Holding("F1", Some(1.0), Some(1.0), []), Holding("F3", None, Some(1.0), []);
    var hs := [h1, h3];
    assert Valuations([h1][..0], map[]) == Ok([]) by { assert [h1][..0] == []; }
    assert Valuations([h1], map[]).Ok?;
    assert hs[..|hs| - 1] == [h1];
    assert Valuations(hs, map[]) == Err(InvalidHolding("F3"));
  }

  /** Two holdings of category "A" worth 30 and 70: one pie slice "A"
      worth 100. */
  lemma OneSlicePerCategory()
    ensures var hs := [Holding("A1", Some(30.0), Some(1.0), [FundMeta(Some("a"), Some("A"))]),
                       Holding("A2", Some(70.0), Some(1.0), [FundMeta(Some("b"), Some("A"))])];
      var r := Dashboard(hs, map[]);
      r.Ok? && r.value.Report? && r.value.pie == [PieEntry("A", 100.0)]
  {
    var h1 := Holding("A1", Some(30.0), Some(1.0), [FundMeta(Some("a"), Some("A"))]);
    var h2 := Holding("A2", Some(70.0), Some(1.0), [FundMeta(Some("b"), Some("A"))]);
    ValuedAtCost("A1", "a", "A", 30.0);
    ValuedAtCost("A2", "b", "A", 70.0);
    TwoValuations(h1, h2, map[]);
    DashboardOfValuations([h1, h2], map[]);
    SameCategoryPie(Value(h1, map[]).value, Value(h2, map[]).value);
  }

  /** A holding priced at a cost of 1.0000 without a quote is worth its
      share count, in the category its metadata names. */
  lemma ValuedAtCost(code: string, n: string, t: string, q: real)
    requires t != ""
    ensures var r := Value(Holding(code, Some(q), Some(1.0), [FundMeta(Some(n), Some(t))]), map[]);
      r.Ok? && r.value.fundType == t && r.value.marketValue == q
  {
    var h := Holding(code, Some(q), Some(1.0), [FundMeta(Some(n), Some(t))]);
    assert Value(h, map[]).Ok?;
    ValueNames(h, map[]);
    ValueWithoutQuote(h, map[]);
    ValueProfit(h, map[]);
  }

  /** Two holdings that both value successfully value to the pair of
      their valuations. */
  lemma TwoValuations(h1: Holding, h2: Holding, quotes: map<string, Quote>)
    requires Value(h1, quotes).Ok? && Value(h2, quotes).Ok?
    ensures Valuations([h1, h2], quotes) == Ok([Value(h1, quotes).value, Value(h2, quotes).value])
  {
    var hs := [h1, h2];
    var v1, v2 := Value(h1, quotes).value, Value(h2, quotes).value;
    assert hs[..1] == [h1] && [h1][..0] == [] && [] + [v1] == [v1] && [v1] + [v2] == [v1, v2];
    assert Valuations([h1], quotes) == Ok([v1]);
  }

  /** The pie of two valuations of category "A" worth 30 and 70. */
  lemma SameCategoryPie(v1: HoldingValuation, v2: HoldingValuation)
    requires v1.fundType == "A" && v2.fundType == "A"
    requires v1.marketValue == 30.0 && v2.marketValue == 70.0
    ensures forall t :: t in TypesSeen([v1, v2]) ==> t in Allocation([v1, v2])
    ensures Pie(TypesSeen([v1, v2]), Allocation([v1, v2])) == [PieEntry("A", 100.0)]
  {
    FirstOfCategory(v1);
    SecondOfCategory(v1, v2);
    WholeCents();
    assert Pie(["A"], map["A" := 100.0])[0] == PieEntry("A", Round2(100.0));
  }

  lemma FirstOfCategory(v1: HoldingValuation)
    requires v1.fundType == "A" && v1.marketValue == 30.0
    ensures TypesSeen([v1]) == ["A"] && Allocation([v1]) == map["A" := 30.0]
  {
    WholeCents();
    assert [v1][..0] == [];
  }

  lemma SecondOfCategory(v1: HoldingValuation, v2: HoldingValuation)
    requires TypesSeen([v1]) == ["A"] && Allocation([v1]) == map["A" := 30.0]
    requires v2.fundType == "A" && v2.marketValue == 70.0
    ensures TypesSeen([v1, v2]) == ["A"] && Allocation([v1, v2]) == map["A" := 100.0]
  {
    WholeCents();
    AllocationKnownStep([v1], v2);
    assert [v1] + [v2] == [v1, v2];
    assert map["A" := 30.0]["A" := 30.0 + 70.0] == map["A" := 100.0];
  }

  lemma WholeCents()
    ensures Round2(30.0) == 30.0 && Round2(70.0) == 70.0 && Round2(100.0) == 100.0
  {
    assert IsCents(30.0) && IsCents(70.0) && IsCents(100.0);
    Round2OfCents(30.0);
    Round2OfCents(70.0);
    Round2OfCents(100.0);
  }

  /** Two staging rows with code "F1": one metadata record, built from the
      first row, and two holdings. */
  lemma DuplicateCode()
    ensures var rows := [RawFund("F1", Some("Alpha"), None, 10.0, 1.5), RawFund("F1", Some("Beta"), Some("Bond"), 5.0, 2.0)];
      && FundBasics(rows) == [FundRecord("F1", "F1", "Alpha", MixedType)]
      && |Portfolios(rows)| == 2
  {
    var r1 := RawFund("F1", Some("Alpha"), None, 10.0, 1.5);
    var r2 := RawFund("F1", Some("Beta"), Some("Bond"), 5.0, 2.0);
    var rows := [r1, r2];
    assert rows[..1] == [r1] && [r1][..0] == [];
    assert FundBasics([r1]) == [FundRecordOf(r1)];
    assert CodesOf(FundBasics([r1])) == ["F1"];
  }

  /** 120 items go out in three batches of 50, 50 and 20. */
  lemma ThreeBatches(items: seq<Item>)
    requires |items| == 120
    ensures |Batches(items)| == 3
    ensures |Batches(items)[0]| == 50 && |Batches(items)[1]| == 50 && |Batches(items)[2]| == 20
  {
    BatchesPartition(items);
    BatchesAt(items, 2);
  }
}
