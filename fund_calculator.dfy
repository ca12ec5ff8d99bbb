/** The valuation engine of the fund-calculator cloud function: it joins
    each holding with its fund metadata and a quote, values it, and rolls the
    values up into portfolio totals and a per-category allocation. */
module FundCalculator {
  import opened Common
  import opened Money

  /** One row of the `fund_basic` collection joined onto a holding. */
  datatype FundMeta = FundMeta(name: Option<string>, fundType: Option<string>)

  /** One `user_portfolio` document with its joined `basic_info` list.
      A numeric field that is absent is `None`. */
  datatype Holding = Holding(
    fundCode: string,
    totalShares: Option<real>,
    avgCost: Option<real>,
    basicInfo: seq<FundMeta>)

  /** A market quote: price, daily change in percent, as-of date. */
  datatype Quote = Quote(price: real, percent: real, date: string)

  /** One entry of `dashboardData`, with the numbers kept exact. */
  datatype HoldingValuation = HoldingValuation(
    code: string,
    name: string,
    fundType: string,
    shares: real,
    cost: real,
    price: real,
    dailyPercent: real,
    marketValue: real,
    profit: real,
    returnRate: real,
    isGain: bool,
    updateTime: Option<string>)

  datatype Summary = Summary(
    totalAssets: real,
    totalProfit: real,
    totalReturnRate: real,
    isGain: bool)

  /** One slice of the allocation pie chart. */
  datatype PieEntry = PieEntry(name: string, value: real)

  /** The two answer shapes: the special empty-portfolio answer and the
      full report. */
  datatype Response =
    | EmptyPortfolio
    | Report(dashboardData: seq<HoldingValuation>, summary: Summary, pie: seq<PieEntry>)

  /** A holding whose share count or average cost is absent makes the
      formatting of its entry throw, and the whole call answers with an error. */
  datatype CalcError = InvalidHolding(code: string)

  const UnknownFundName := "未知基金"
  const OtherType := "其他"

  /** `profit / cost * 100`, defined as 0 when the cost is 0. */
  function ReturnRate(profit: real, cost: real): (r: real)
    ensures cost == 0.0 ==> r == 0.0
    ensures cost > 0.0 ==> (r >= 0.0 <==> profit >= 0.0)
  {
    if cost == 0.0 then 0.0 else profit / cost * 100.0
  }

  /** The rate scales back to the profit: rate * cost == profit * 100. */
  lemma ReturnRateScales(profit: real, cost: real)
    ensures cost != 0.0 ==> ReturnRate(profit, cost) * cost == profit * 100.0
  {
  }

  /** `basic_info[0] || {}`: the first joined metadata row, if any. */
  function InfoOf(h: Holding): (r: FundMeta)
    ensures |h.basicInfo| > 0 ==> r == h.basicInfo[0]
    ensures |h.basicInfo| == 0 ==> r.name.None? && r.fundType.None?
  {
    if |h.basicInfo| > 0 then h.basicInfo[0] else FundMeta(None, None)
  }

  /** Values one holding against the quotes. A missing quote falls back to
      the holding's average cost as the current price, with change 0 and no
      date. */
  function Value(h: Holding, quotes: map<string, Quote>): (r: Result<HoldingValuation, CalcError>)
    ensures r.Err? <==> h.totalShares.None? || h.avgCost.None?
    ensures r.Err? ==> r.error == InvalidHolding(h.fundCode)
    ensures r.Ok? ==> r.value.code == h.fundCode && r.value.shares == h.totalShares.value
                      && r.value.cost == h.avgCost.value
  {
    if h.totalShares.None? || h.avgCost.None? then Err(InvalidHolding(h.fundCode))
    else
      var info := InfoOf(h);
      var shares := h.totalShares.value;
      var costPrice := h.avgCost.value;
      var price := if h.fundCode in quotes then quotes[h.fundCode].price else costPrice;
      var marketValue := shares * price;
      var costValue := shares * costPrice;
      var profit := marketValue - costValue;
      Ok(HoldingValuation(
        h.fundCode,
        OrDefault(info.name, UnknownFundName),
        OrDefault(info.fundType, OtherType),
        shares,
        costPrice,
        price,
        if h.fundCode in quotes then quotes[h.fundCode].percent else 0.0,
        marketValue,
        profit,
        ReturnRate(profit, costValue),
        profit >= 0.0,
        if h.fundCode in quotes then Some(quotes[h.fundCode].date) else None))
  }

  /** The cost value of a valued holding: shares times average cost. */
  function CostValue(v: HoldingValuation): real
  {
    v.shares * v.cost
  }

  // ---------------------------------------------------------------------
  // Properties of one valuation

  /** Profit is market value minus cost value, exactly; market value is
      shares times the current price. */
  lemma ValueProfit(h: Holding, quotes: map<string, Quote>)
    requires Value(h, quotes).Ok?
    ensures var v := Value(h, quotes).value;
      v.marketValue == v.shares * v.price && v.profit == v.marketValue - CostValue(v)
  {
  }

  /** The return rate is 0 on a zero cost value, and otherwise scales the
      profit back: rate * cost == profit * 100. */
  lemma ValueReturnRate(h: Holding, quotes: map<string, Quote>)
    requires Value(h, quotes).Ok?
    ensures var v := Value(h, quotes).value;
      (CostValue(v) == 0.0 ==> v.returnRate == 0.0)
      && (CostValue(v) != 0.0 ==> v.returnRate * CostValue(v) == v.profit * 100.0)
  {
  }

  /** Without a quote the holding is valued at cost: no profit, rate 0, a gain. */
  lemma ValueWithoutQuote(h: Holding, quotes: map<string, Quote>)
    requires Value(h, quotes).Ok? && h.fundCode !in quotes
    ensures var v := Value(h, quotes).value;
      v.price == v.cost && v.profit == 0.0 && v.returnRate == 0.0 && v.isGain
      && v.dailyPercent == 0.0 && v.updateTime.None?
  {
  }

  /** With a quote, its price, change and date are the ones reported. */
  lemma ValueWithQuote(h: Holding, quotes: map<string, Quote>)
    requires Value(h, quotes).Ok? && h.fundCode in quotes
    ensures var v := Value(h, quotes).value;
      v.price == quotes[h.fundCode].price && v.dailyPercent == quotes[h.fundCode].percent
      && v.updateTime == Some(quotes[h.fundCode].date)
  {
  }

  /** The gain flag is `profit >= 0`; on a positive cost value it agrees with
      the sign of the return rate. */
  lemma ValueGain(h: Holding, quotes: map<string, Quote>)
    requires Value(h, quotes).Ok?
    ensures var v := Value(h, quotes).value;
      (v.isGain <==> v.profit >= 0.0)
      && (CostValue(v) > 0.0 ==> (v.isGain <==> v.returnRate >= 0.0))
  {
    var v := Value(h, quotes).value;
    if CostValue(v) > 0.0 {
      assert v.returnRate == v.profit / CostValue(v) * 100.0;
      if v.profit >= 0.0 {
        assert v.profit / CostValue(v) >= 0.0;
      } else {
        assert v.profit / CostValue(v) < 0.0;
      }
    }
  }

  /** The joined name and type are used when present and non-empty;
      otherwise 'Unknown fund' and 'Other'. */
  lemma ValueNames(h: Holding, quotes: map<string, Quote>)
    requires Value(h, quotes).Ok?
    ensures var v := Value(h, quotes).value;
      && (|h.basicInfo| == 0 ==> v.name == UnknownFundName && v.fundType == OtherType)
      && (|h.basicInfo| > 0 ==>
            v.name == OrDefault(h.basicInfo[0].name, UnknownFundName)
            && v.fundType == OrDefault(h.basicInfo[0].fundType, OtherType))
  {
  }

  // ---------------------------------------------------------------------
  // The whole list, specified by recursion on its last element

  /** Values every holding in order; the first holding that cannot be
      valued decides the error. */
  function Valuations(hs: seq<Holding>, quotes: map<string, Quote>): (r: Result<seq<HoldingValuation>, CalcError>)
    ensures r.Ok? ==> |r.value| == |hs|
  {
    if hs == [] then Ok([])
    else
      match Valuations(hs[..|hs| - 1], quotes)
      case Err(e) => Err(e)
      case Ok(vs) =>
        match Value(hs[|hs| - 1], quotes)
        case Err(e) => Err(e)
        case Ok(v) => Ok(vs + [v])
  }

  function TotalAssets(vs: seq<HoldingValuation>): real
  {
    if vs == [] then 0.0 else TotalAssets(vs[..|vs| - 1]) + vs[|vs| - 1].marketValue
  }

  function TotalProfit(vs: seq<HoldingValuation>): real
  {
    if vs == [] then 0.0 else TotalProfit(vs[..|vs| - 1]) + vs[|vs| - 1].profit
  }

  function TotalCost(vs: seq<HoldingValuation>): real
  {
    if vs == [] then 0.0 else TotalCost(vs[..|vs| - 1]) + CostValue(vs[|vs| - 1])
  }

  /** The sum of every holding's market value rounded to cents. */
  function TotalRounded(vs: seq<HoldingValuation>): real
  {
    if vs == [] then 0.0 else TotalRounded(vs[..|vs| - 1]) + Round2(vs[|vs| - 1].marketValue)
  }

  /** `typeAllocation`: per category, the sum of its holdings' market values,
      each rounded to cents before it is added. */
  function Allocation(vs: seq<HoldingValuation>): (r: map<string, real>)
  {
    if vs == [] then map[]
    else
      var m := Allocation(vs[..|vs| - 1]);
      var v := vs[|vs| - 1];
      m[v.fundType := (if v.fundType in m then m[v.fundType] else 0.0) + Round2(v.marketValue)]
  }

  /** The categories in the order they were first seen (the key order of
      the allocation object). */
  function TypesSeen(vs: seq<HoldingValuation>): (r: seq<string>)
    ensures |r| <= |vs|
    ensures vs != [] ==> |r| > 0 && r[0] == vs[0].fundType
  {
    if vs == [] then []
    else
      var ts := TypesSeen(vs[..|vs| - 1]);
      var t := vs[|vs| - 1].fundType;
      if t in ts then ts else ts + [t]
  }

  /** An independent reference: the rounded market values of one category. */
  function CategoryTotal(vs: seq<HoldingValuation>, t: string): real
  {
    if vs == [] then 0.0
    else CategoryTotal(vs[..|vs| - 1], t)
         + (if vs[|vs| - 1].fundType == t then Round2(vs[|vs| - 1].marketValue) else 0.0)
  }

  /** The pie chart: one entry per category in first-seen order, its value
      rounded to cents. */
  function Pie(types: seq<string>, alloc: map<string, real>): (r: seq<PieEntry>)
    requires forall t :: t in types ==> t in alloc
    ensures |r| == |types|
    ensures forall k :: 0 <= k < |r| ==> r[k].name == types[k]
  {
    seq(|types|, k requires 0 <= k < |types| => PieEntry(types[k], Round2(alloc[types[k]])))
  }

  /** The summary's gain flag agrees with the sign of its return rate
      whenever something was paid for the holdings. */
  function SummaryOf(vs: seq<HoldingValuation>): (r: Summary)
    ensures r.totalAssets == TotalAssets(vs) && r.totalProfit == TotalProfit(vs)
    ensures TotalCost(vs) > 0.0 ==> (r.isGain <==> r.totalReturnRate >= 0.0)
  {
    var profit := TotalProfit(vs);
    Summary(TotalAssets(vs), profit, ReturnRate(profit, TotalCost(vs)), profit >= 0.0)
  }

  /** The whole computation: the empty-portfolio answer for no holdings,
      an error if some holding cannot be valued, otherwise the report. */
  function Dashboard(hs: seq<Holding>, quotes: map<string, Quote>): (r: Result<Response, CalcError>)
    ensures hs == [] ==> r == Ok(EmptyPortfolio)
    ensures hs != [] && r.Ok? ==> r.value.Report?
  {
    if hs == [] then Ok(EmptyPortfolio)
    else
      match Valuations(hs, quotes)
      case Err(e) => Err(e)
      case Ok(vs) =>
        AllocationDomain(vs);
        Ok(Report(vs, SummaryOf(vs), Pie(TypesSeen(vs), Allocation(vs))))
  }

  /** A non-empty portfolio gets an answer exactly when every holding can
      be valued. */
  lemma DashboardOk(hs: seq<Holding>, quotes: map<string, Quote>)
    requires hs != []
    ensures Dashboard(hs, quotes).Ok? <==> forall i :: 0 <= i < |hs| ==> Value(hs[i], quotes).Ok?
  {
    ValuationsInOrder(hs, quotes);
  }

  // ---------------------------------------------------------------------
  // Properties of the list computation

  /** The allocation has a key for exactly the categories listed in
      first-seen order. */
  lemma {:induction false} AllocationDomain(vs: seq<HoldingValuation>)
    ensures forall t :: t in Allocation(vs) <==> t in TypesSeen(vs)
  {
    if vs != [] {
      AllocationDomain(vs[..|vs| - 1]);
    }
  }

  /** Each category is listed once. */
  lemma {:induction false} TypesSeenDistinct(vs: seq<HoldingValuation>)
    ensures forall i, j :: 0 <= i < j < |TypesSeen(vs)| ==> TypesSeen(vs)[i] != TypesSeen(vs)[j]
  {
    if vs != [] {
      TypesSeenDistinct(vs[..|vs| - 1]);
    }
  }

  /** The categories listed are exactly the categories of the holdings. */
  lemma {:induction false} TypesSeenCover(vs: seq<HoldingValuation>)
    ensures forall t :: t in TypesSeen(vs) <==> exists i :: 0 <= i < |vs| && vs[i].fundType == t
  {
    if vs != [] {
      var p := vs[..|vs| - 1];
      TypesSeenCover(p);
      forall t | t in TypesSeen(vs)
        ensures exists i :: 0 <= i < |vs| && vs[i].fundType == t
      {
        if t in TypesSeen(p) {
          var i :| 0 <= i < |p| && p[i].fundType == t;
          assert vs[i] == p[i];
        } else {
          assert vs[|vs| - 1].fundType == t;
        }
      }
      forall t | exists i :: 0 <= i < |vs| && vs[i].fundType == t
        ensures t in TypesSeen(vs)
      {
        var i :| 0 <= i < |vs| && vs[i].fundType == t;
        if i < |vs| - 1 {
          assert p[i] == vs[i];
        }
      }
    }
  }

  /** Each category's allocation is the sum of its holdings' rounded
      market values. */
  lemma {:induction false} AllocationIsCategoryTotal(vs: seq<HoldingValuation>, t: string)
    ensures t in Allocation(vs) ==> Allocation(vs)[t] == CategoryTotal(vs, t)
    ensures t !in Allocation(vs) ==> CategoryTotal(vs, t) == 0.0
  {
    if vs != [] {
      AllocationIsCategoryTotal(vs[..|vs| - 1], t);
    }
  }

  /** Every allocation value is a whole number of cents. */
  lemma {:induction false} AllocationInCents(vs: seq<HoldingValuation>)
    ensures forall t :: t in Allocation(vs) ==> IsCents(Allocation(vs)[t])
  {
    if vs != [] {
      var p := vs[..|vs| - 1];
      var v := vs[|vs| - 1];
      AllocationInCents(p);
      Round2IsCents(v.marketValue);
      if v.fundType in Allocation(p) {
        CentsAdd(Allocation(p)[v.fundType], Round2(v.marketValue));
      } else {
        assert IsCents(0.0);
        CentsAdd(0.0, Round2(v.marketValue));
      }
    }
  }

  /** Summing the allocation over a list of distinct categories. */
  function SumOver(ts: seq<string>, m: map<string, real>): real
    requires forall t :: t in ts ==> t in m
  {
    if ts == [] then 0.0 else SumOver(ts[..|ts| - 1], m) + m[ts[|ts| - 1]]
  }

  lemma {:induction false} SumOverUpdate(ts: seq<string>, m: map<string, real>, t: string, d: real)
    requires forall u :: u in ts ==> u in m
    requires t in m
    requires forall i, j :: 0 <= i < j < |ts| ==> ts[i] != ts[j]
    ensures SumOver(ts, m[t := m[t] + d]) == SumOver(ts, m) + (if t in ts then d else 0.0)
  {
    if ts != [] {
      var p := ts[..|ts| - 1];
      assert forall u :: u in p ==> u in ts;
      SumOverUpdate(p, m, t, d);
      if ts[|ts| - 1] == t {
        assert forall i :: 0 <= i < |p| ==> p[i] == ts[i] && ts[i] != ts[|ts| - 1];
      }
    }
  }

  lemma {:induction false} SumOverExtend(ts: seq<string>, m: map<string, real>, t: string, x: real)
    requires forall u :: u in ts ==> u in m
    requires t !in ts
    ensures SumOver(ts, m[t := x]) == SumOver(ts, m)
  {
    if ts != [] {
      var p := ts[..|ts| - 1];
      assert forall u :: u in p ==> u in ts;
      SumOverExtend(p, m, t, x);
    }
  }

  /** The allocation distributes exactly the rounded market values: its
      entries add up to the sum of every holding's rounded value. */
  lemma {:induction false} AllocationTotal(vs: seq<HoldingValuation>)
    ensures forall t :: t in TypesSeen(vs) ==> t in Allocation(vs)
    ensures SumOver(TypesSeen(vs), Allocation(vs)) == TotalRounded(vs)
  {
    AllocationDomain(vs);
    if vs != [] {
      var p, v := vs[..|vs| - 1], vs[|vs| - 1];
      assert p + [v] == vs;
      AllocationTotal(p);
      AllocationDomain(p);
      if v.fundType in TypesSeen(p) {
        AllocationTotalKnown(p, v);
      } else {
        AllocationTotalNew(p, v);
      }
    }
  }

  /** A holding of a category already listed adds its rounded value to
      that category's entry. */
  lemma {:induction false} AllocationTotalKnown(p: seq<HoldingValuation>, v: HoldingValuation)
    requires v.fundType in TypesSeen(p)
    requires forall t :: t in Allocation(p) <==> t in TypesSeen(p)
    requires SumOver(TypesSeen(p), Allocation(p)) == TotalRounded(p)
    ensures SumOver(TypesSeen(p + [v]), Allocation(p + [v])) == TotalRounded(p + [v])
  {
    var t, r := v.fundType, Round2(v.marketValue);
    var m, ts := Allocation(p), TypesSeen(p);
    assert t in m;
    var m2 := m[t := m[t] + r];
    AllocationKnownStep(p, v);
    assert TypesSeen(p + [v]) == ts && Allocation(p + [v]) == m2;
    TypesSeenDistinct(p);
    SumOverUpdate(ts, m, t, r);
    assert SumOver(ts, m2) == TotalRounded(p) + r;
    assert SumOver(TypesSeen(p + [v]), Allocation(p + [v])) == SumOver(ts, m2);
  }

  lemma {:induction false} AllocationKnownStep(p: seq<HoldingValuation>, v: HoldingValuation)
    requires v.fundType in TypesSeen(p) && v.fundType in Allocation(p)
    ensures TypesSeen(p + [v]) == TypesSeen(p)
    ensures TotalRounded(p + [v]) == TotalRounded(p) + Round2(v.marketValue)
    ensures Allocation(p + [v]) == Allocation(p)[v.fundType := Allocation(p)[v.fundType] + Round2(v.marketValue)]
  {
    AccumulateStep(p, v);
  }

  /** A holding of a new category appends it with its rounded value. */
  lemma {:induction false} AllocationTotalNew(p: seq<HoldingValuation>, v: HoldingValuation)
    requires v.fundType !in TypesSeen(p)
    requires forall t :: t in Allocation(p) <==> t in TypesSeen(p)
    requires SumOver(TypesSeen(p), Allocation(p)) == TotalRounded(p)
    ensures SumOver(TypesSeen(p + [v]), Allocation(p + [v])) == TotalRounded(p + [v])
  {
    var t, r := v.fundType, Round2(v.marketValue);
    var m, ts := Allocation(p), TypesSeen(p);
    AccumulateStep(p, v);
    var ts2, m2 := ts + [t], m[t := r];
    SumOverExtend(ts, m, t, r);
    assert ts2[..|ts2| - 1] == ts;
    assert SumOver(ts2, m2) == SumOver(ts, m2) + r;
  }

  /** Rounding the allocation for the pie changes nothing: the pie's
      values add up to the rounded market values, and each is its
      category's total. */
  lemma {:induction false} PieValues(vs: seq<HoldingValuation>)
    ensures forall t :: t in TypesSeen(vs) ==> t in Allocation(vs)
    ensures var pie := Pie(TypesSeen(vs), Allocation(vs));
      forall k :: 0 <= k < |pie| ==> pie[k].value == CategoryTotal(vs, pie[k].name)
  {
    AllocationDomain(vs);
    AllocationInCents(vs);
    var pie := Pie(TypesSeen(vs), Allocation(vs));
    forall k | 0 <= k < |pie|
      ensures pie[k].value == CategoryTotal(vs, pie[k].name)
    {
      Round2OfCents(Allocation(vs)[pie[k].name]);
      AllocationIsCategoryTotal(vs, pie[k].name);
    }
  }

  /** The pie total is within half a cent per holding of total assets. */
  lemma {:induction false} RoundedTotalError(vs: seq<HoldingValuation>)
    ensures -0.005 * (|vs| as real) <= TotalRounded(vs) - TotalAssets(vs) <= 0.005 * (|vs| as real)
  {
    if vs != [] {
      RoundedTotalError(vs[..|vs| - 1]);
      Round2Error(vs[|vs| - 1].marketValue);
    }
  }

  /** Total profit is total assets minus total cost. */
  lemma {:induction false} TotalsBalance(hs: seq<Holding>, quotes: map<string, Quote>)
    requires Valuations(hs, quotes).Ok?
    ensures var vs := Valuations(hs, quotes).value;
      TotalProfit(vs) == TotalAssets(vs) - TotalCost(vs)
  {
    if hs != [] {
      TotalsBalance(hs[..|hs| - 1], quotes);
      ValueProfit(hs[|hs| - 1], quotes);
    }
  }

  /** The valuations keep the input's length and order: entry i values
      holding i. The list fails exactly when some holding cannot be valued,
      and then the first such holding names the error. */
  lemma {:induction false} ValuationsInOrder(hs: seq<Holding>, quotes: map<string, Quote>)
    ensures Valuations(hs, quotes).Ok? <==> forall i :: 0 <= i < |hs| ==> Value(hs[i], quotes).Ok?
    ensures Valuations(hs, quotes).Ok? ==>
      var vs := Valuations(hs, quotes).value;
      |vs| == |hs| && forall i :: 0 <= i < |hs| ==> vs[i] == Value(hs[i], quotes).value
  {
    if hs != [] {
      var p := hs[..|hs| - 1];
      ValuationsInOrder(p, quotes);
      assert forall i :: 0 <= i < |p| ==> p[i] == hs[i];
    }
  }

  /** A failing call reports the first holding that cannot be valued. */
  lemma {:induction false} ValuationsFirstError(hs: seq<Holding>, quotes: map<string, Quote>)
    ensures Valuations(hs, quotes).Err? ==>
      exists i :: 0 <= i < |hs| && Value(hs[i], quotes).Err?
        && Valuations(hs, quotes).error == InvalidHolding(hs[i].fundCode)
        && forall j :: 0 <= j < i ==> Value(hs[j], quotes).Ok?
  {
    if hs != [] {
      var p := hs[..|hs| - 1];
      ValuationsFirstError(p, quotes);
      if Valuations(p, quotes).Err? {
        var i :| 0 <= i < |p| && Value(p[i], quotes).Err?
          && Valuations(p, quotes).error == InvalidHolding(p[i].fundCode)
          && forall j :: 0 <= j < i ==> Value(p[j], quotes).Ok?;
        assert hs[i] == p[i];
        assert forall j :: 0 <= j < i ==> hs[j] == p[j];
      } else {
        ValuationsInOrder(p, quotes);
        assert forall j :: 0 <= j < |p| ==> hs[j] == p[j];
      }
    }
  }

  /** A portfolio answer's totals: the summary reports sums over exactly
      the holdings listed, its gain flag is `profit >= 0`, i.e. assets at
      least cost, and its return rate is 0 on zero total cost. */
  lemma {:induction false} DashboardSummary(hs: seq<Holding>, quotes: map<string, Quote>)
    requires Dashboard(hs, quotes).Ok? && Dashboard(hs, quotes).value.Report?
    ensures var rep := Dashboard(hs, quotes).value;
      var vs := rep.dashboardData;
      |vs| == |hs|
      && rep.summary.totalAssets == TotalAssets(vs)
      && rep.summary.totalProfit == TotalAssets(vs) - TotalCost(vs)
      && (rep.summary.isGain <==> TotalAssets(vs) >= TotalCost(vs))
      && (TotalCost(vs) == 0.0 ==> rep.summary.totalReturnRate == 0.0)
      && (TotalCost(vs) != 0.0 ==> rep.summary.totalReturnRate * TotalCost(vs) == rep.summary.totalProfit * 100.0)
  {
    assert hs != [] && Valuations(hs, quotes).Ok?;
    DashboardOfValuations(hs, quotes);
    var vs := Valuations(hs, quotes).value;
    TotalsBalance(hs, quotes);
    SummaryBalance(vs);
    assert Dashboard(hs, quotes).value.dashboardData == vs;
    assert Dashboard(hs, quotes).value.summary == SummaryOf(vs);
  }

  /** The summary of balanced totals: profit is assets less cost, the
      return rate is profit over cost in percent (0 on no cost). */
  lemma {:induction false} SummaryBalance(vs: seq<HoldingValuation>)
    requires TotalProfit(vs) == TotalAssets(vs) - TotalCost(vs)
    ensures var s := SummaryOf(vs);
      && s.totalAssets == TotalAssets(vs)
      && s.totalProfit == TotalAssets(vs) - TotalCost(vs)
      && (s.isGain <==> TotalAssets(vs) >= TotalCost(vs))
      && (TotalCost(vs) == 0.0 ==> s.totalReturnRate == 0.0)
      && (TotalCost(vs) != 0.0 ==> s.totalReturnRate * TotalCost(vs) == s.totalProfit * 100.0)
  {
    ReturnRateScales(TotalProfit(vs), TotalCost(vs));
  }

  // ---------------------------------------------------------------------
  // The imperative pass of the cloud function

  /** Error in a prefix is the error of the whole list. */
  lemma {:induction false} ValuationsErrExtends(hs: seq<Holding>, quotes: map<string, Quote>, i: nat)
    requires i <= |hs| && Valuations(hs[..i], quotes).Err?
    ensures Valuations(hs, quotes) == Valuations(hs[..i], quotes)
  {
    if i < |hs| {
      var p := hs[..|hs| - 1];
      assert p[..i] == hs[..i];
      ValuationsErrExtends(p, quotes, i);
    } else {
      assert hs[..i] == hs;
    }
  }

  /** One more holding: the list of valuations grows by its valuation or
      fails with its error. */
  lemma {:induction false} ValuationsStep(hs: seq<Holding>, quotes: map<string, Quote>, i: nat)
    requires i < |hs| && Valuations(hs[..i], quotes).Ok?
    ensures Value(hs[i], quotes).Ok? ==>
      Valuations(hs[..i + 1], quotes) == Ok(Valuations(hs[..i], quotes).value + [Value(hs[i], quotes).value])
    ensures Value(hs[i], quotes).Err? ==> Valuations(hs[..i + 1], quotes) == Err(Value(hs[i], quotes).error)
  {
    assert hs[..i + 1][..i] == hs[..i];
  }

  /** One more valuation: how the totals, the allocation and the category
      order change. */
  lemma {:induction false} AccumulateStep(vs: seq<HoldingValuation>, v: HoldingValuation)
    ensures TotalAssets(vs + [v]) == TotalAssets(vs) + v.marketValue
    ensures TotalProfit(vs + [v]) == TotalProfit(vs) + v.profit
    ensures TotalCost(vs + [v]) == TotalCost(vs) + CostValue(v)
    ensures Allocation(vs + [v]) == Allocation(vs)[v.fundType :=
      (if v.fundType in Allocation(vs) then Allocation(vs)[v.fundType] else 0.0) + Round2(v.marketValue)]
    ensures TypesSeen(vs + [v]) == if v.fundType in TypesSeen(vs) then TypesSeen(vs) else TypesSeen(vs) + [v.fundType]
    ensures TotalRounded(vs + [v]) == TotalRounded(vs) + Round2(v.marketValue)
  {
    assert (vs + [v])[..|vs|] == vs;
  }

  lemma {:induction false} DashboardOfValuations(hs: seq<Holding>, quotes: map<string, Quote>)
    requires hs != [] && Valuations(hs, quotes).Ok?
    ensures forall t :: t in TypesSeen(Valuations(hs, quotes).value) ==> t in Allocation(Valuations(hs, quotes).value)
    ensures var vs := Valuations(hs, quotes).value;
      Dashboard(hs, quotes) == Ok(Report(vs, SummaryOf(vs), Pie(TypesSeen(vs), Allocation(vs))))
  {
    AllocationDomain(Valuations(hs, quotes).value);
  }

  /** The running totals after one more holding: its market value, its
      profit and its cost value are added. */
  method AddToTotals(totalAssets: real, totalProfit: real, totalCost: real, v: HoldingValuation,
                     ghost vs: seq<HoldingValuation>)
    returns (assets: real, profit: real, cost: real)
    requires totalAssets == TotalAssets(vs) && totalProfit == TotalProfit(vs) && totalCost == TotalCost(vs)
    ensures assets == TotalAssets(vs + [v]) && profit == TotalProfit(vs + [v]) && cost == TotalCost(vs + [v])
  {
    var costValue := v.shares * v.cost;
    assets := totalAssets + v.marketValue;
    profit := totalProfit + v.profit;
    cost := totalCost + costValue;
    assert (vs + [v])[..|vs|] == vs;
  }

  /** The allocation update for one holding: a category whose running
      value is non-zero is added to, otherwise its entry is set to the
      rounded market value (a key seen for the first time is appended to
      the key order). */
  method AddToCategory(typeAllocation: map<string, real>, typeOrder: seq<string>, v: HoldingValuation,
                       ghost vs: seq<HoldingValuation>)
    returns (allocation: map<string, real>, order: seq<string>)
    requires typeAllocation == Allocation(vs) && typeOrder == TypesSeen(vs)
    ensures allocation == Allocation(vs + [v]) && order == TypesSeen(vs + [v])
  {
    var valFloat := Round2(v.marketValue);
    AllocationDomain(vs);
    AccumulateStep(vs, v);
    order := typeOrder;
    if v.fundType in typeAllocation && typeAllocation[v.fundType] != 0.0 {
      allocation := typeAllocation[v.fundType := typeAllocation[v.fundType] + valFloat];
    } else {
      if v.fundType !in typeAllocation {
        order := typeOrder + [v.fundType];
      }
      allocation := typeAllocation[v.fundType := valFloat];
    }
  }

  /** The body of the cloud function: one pass over the holdings that
      values each one, adds it to the running totals and to its category,
      then builds the pie and the summary. */
  method ComputeDashboard(hs: seq<Holding>, quotes: map<string, Quote>) returns (r: Result<Response, CalcError>)
    ensures r == Dashboard(hs, quotes)
  {
    if |hs| == 0 {
      return Ok(EmptyPortfolio);
    }
    var totalAssets, totalProfit, totalCost := 0.0, 0.0, 0.0;
    var typeAllocation: map<string, real> := map[];
    var typeOrder: seq<string> := [];
    var dashboardData: seq<HoldingValuation> := [];
    var i := 0;
    while i < |hs|
      invariant 0 <= i <= |hs|
      invariant Valuations(hs[..i], quotes) == Ok(dashboardData)
      invariant totalAssets == TotalAssets(dashboardData)
      invariant totalProfit == TotalProfit(dashboardData)
      invariant totalCost == TotalCost(dashboardData)
      invariant typeAllocation == Allocation(dashboardData)
      invariant typeOrder == TypesSeen(dashboardData)
    {
      var entry := Value(hs[i], quotes);
      ValuationsStep(hs, quotes, i);
      if entry.Err? {
        ValuationsErrExtends(hs, quotes, i + 1);
        return Err(entry.error);
      }
      var v := entry.value;
      totalAssets, totalProfit, totalCost := AddToTotals(totalAssets, totalProfit, totalCost, v, dashboardData);
      typeAllocation, typeOrder := AddToCategory(typeAllocation, typeOrder, v, dashboardData);
      dashboardData := dashboardData + [v];
      i := i + 1;
    }
    assert hs[..i] == hs;
    DashboardOfValuations(hs, quotes);
    var pie := Pie(typeOrder, typeAllocation);
    var totalReturnRate := ReturnRate(totalProfit, totalCost);
    r := Ok(Report(dashboardData, Summary(totalAssets, totalProfit, totalReturnRate, totalProfit >= 0.0), pie));
  }
}
