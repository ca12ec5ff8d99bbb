/** The migrate-data cloud function: it turns the raw staging rows into
    fund metadata, holdings and transactions, and loads them into their
    collections with the batched write. */
module MigrateData {
  import opened Common
  import opened DocStore

  /** A row of `temp_funds`. */
  datatype RawFund = RawFund(
    fundCode: string,
    fundName: Option<string>,
    fundType: Option<string>,
    shares: real,
    cost: real)

  /** A row of `temp_transactions`. */
  datatype RawTransaction = RawTransaction(
    fundCode: string,
    kind: Option<string>,
    date: Option<string>,
    shares: real,
    price: Option<real>,
    amount: Option<real>,
    note: Option<string>)

  /** A `fund_basic` record, keyed by its code. */
  datatype FundRecord = FundRecord(id: string, code: string, name: string, fundType: string)

  /** The counts the function reports. */
  datatype Stats = Stats(funds: nat, portfolios: nat, transactions: nat)

  const UnnamedFund := "未命名基金"
  const MixedType := "混合型"
  const BuyToken := "买入"

  // ---------------------------------------------------------------------
  // fund_basic: one record per code, the first row winning

  /** The record built from a row: keyed by its code, a missing or empty
      name or type replaced by 'Unnamed fund' and 'Mixed'. */
  function FundRecordOf(row: RawFund): (r: FundRecord)
    ensures r.id == row.fundCode && r.code == row.fundCode
    ensures row.fundName.Some? && row.fundName.value != "" ==> r.name == row.fundName.value
    ensures row.fundName.None? || row.fundName.value == "" ==> r.name == UnnamedFund
    ensures row.fundType.Some? && row.fundType.value != "" ==> r.fundType == row.fundType.value
    ensures row.fundType.None? || row.fundType.value == "" ==> r.fundType == MixedType
  {
    FundRecord(row.fundCode, row.fundCode, OrDefault(row.fundName, UnnamedFund), OrDefault(row.fundType, MixedType))
  }

  function CodesOf(recs: seq<FundRecord>): (r: seq<string>)
    ensures |r| == |recs| && forall k :: 0 <= k < |recs| ==> r[k] == recs[k].code
  {
    seq(|recs|, k requires 0 <= k < |recs| => recs[k].code)
  }

  /** The values of the `fundBasicMap`, in insertion order: a row whose code
      is already there is skipped. */
  function FundBasics(rows: seq<RawFund>): (r: seq<FundRecord>)
    ensures |r| <= |rows|
    ensures rows != [] ==> |r| > 0 && r[0] == FundRecordOf(rows[0])
  {
    if rows == [] then []
    else
      var recs := FundBasics(rows[..|rows| - 1]);
      var row := rows[|rows| - 1];
      if row.fundCode in CodesOf(recs) then recs else recs + [FundRecordOf(row)]
  }

  /** The distinct codes of the raw rows. */
  function RawCodes(rows: seq<RawFund>): set<string>
  {
    if rows == [] then {} else RawCodes(rows[..|rows| - 1]) + {rows[|rows| - 1].fundCode}
  }

  /** A code is among the raw codes exactly when some row carries it. */
  lemma {:induction false} RawCodesMember(rows: seq<RawFund>, c: string)
    ensures c in RawCodes(rows) <==> exists i :: 0 <= i < |rows| && rows[i].fundCode == c
  {
    if rows != [] {
      var p := rows[..|rows| - 1];
      RawCodesMember(p, c);
      if exists i :: 0 <= i < |rows| && rows[i].fundCode == c {
        var i :| 0 <= i < |rows| && rows[i].fundCode == c;
        if i < |rows| - 1 {
          assert p[i] == rows[i];
        }
      }
      if exists i :: 0 <= i < |p| && p[i].fundCode == c {
        var i :| 0 <= i < |p| && p[i].fundCode == c;
        assert rows[i] == p[i];
      }
    }
  }

  lemma {:induction false} CodesSnoc(recs: seq<FundRecord>, r: FundRecord)
    ensures CodesOf(recs + [r]) == CodesOf(recs) + [r.code]
  {
  }

  /** The records carry exactly the raw codes, each code once. */
  lemma {:induction false} FundBasicsCodes(rows: seq<RawFund>)
    ensures forall c :: c in CodesOf(FundBasics(rows)) <==> c in RawCodes(rows)
    ensures var cs := CodesOf(FundBasics(rows));
      forall i, j :: 0 <= i < j < |cs| ==> cs[i] != cs[j]
  {
    if rows != [] {
      var p := rows[..|rows| - 1];
      var row := rows[|rows| - 1];
      FundBasicsCodes(p);
      if row.fundCode !in CodesOf(FundBasics(p)) {
        var cs := CodesOf(FundBasics(p));
        assert FundBasics(rows) == FundBasics(p) + [FundRecordOf(row)];
        CodesSnoc(FundBasics(p), FundRecordOf(row));
        assert CodesOf(FundBasics(rows)) == cs + [row.fundCode];
        assert forall i :: 0 <= i < |cs| ==> cs[i] != row.fundCode;
        var cs2 := CodesOf(FundBasics(rows));
        forall i, j | 0 <= i < j < |cs2|
          ensures cs2[i] != cs2[j]
        {
          if j < |cs| {
            assert cs2[i] == cs[i] && cs2[j] == cs[j];
          } else {
            assert cs2[j] == row.fundCode && cs2[i] == cs[i];
          }
        }
      }
    }
  }

  /** `stats.funds`: one record per distinct raw code. */
  lemma {:induction false} FundBasicsCount(rows: seq<RawFund>)
    ensures |FundBasics(rows)| == |RawCodes(rows)|
  {
    if rows != [] {
      var p := rows[..|rows| - 1];
      FundBasicsCount(p);
      FundBasicsCodes(p);
    }
  }

  /** The index of the first row with code c, or -1 when there is none. */
  function IndexOf(rows: seq<RawFund>, c: string): (r: int)
    ensures -1 <= r < |rows|
  {
    if rows == [] then -1
    else
      var k := IndexOf(rows[..|rows| - 1], c);
      if k >= 0 then k else if rows[|rows| - 1].fundCode == c then |rows| - 1 else -1
  }

  /** `IndexOf` finds the first row carrying the code, and finds one
      exactly when the code is among the raw codes. */
  lemma {:induction false} IndexOfFirst(rows: seq<RawFund>, c: string)
    ensures IndexOf(rows, c) >= 0 <==> c in RawCodes(rows)
    ensures IndexOf(rows, c) >= 0 ==> rows[IndexOf(rows, c)].fundCode == c
    ensures forall j :: 0 <= j < |rows| && (IndexOf(rows, c) < 0 || j < IndexOf(rows, c)) ==> rows[j].fundCode != c
  {
    if rows != [] {
      var p := rows[..|rows| - 1];
      IndexOfFirst(p, c);
      assert forall j :: 0 <= j < |p| ==> p[j] == rows[j];
    }
  }

  /** First occurrence wins: the record of each code is built from the
      first row carrying that code, whatever the later rows say. */
  lemma {:induction false} FundBasicsFirstWins(rows: seq<RawFund>)
    ensures forall k :: 0 <= k < |FundBasics(rows)| ==>
      var i := IndexOf(rows, FundBasics(rows)[k].code);
      0 <= i && FundBasics(rows)[k] == FundRecordOf(rows[i])
  {
    if rows != [] {
      var p := rows[..|rows| - 1];
      var row := rows[|rows| - 1];
      var recs := FundBasics(p);
      FundBasicsFirstWins(p);
      forall k | 0 <= k < |recs|
        ensures IndexOf(rows, recs[k].code) == IndexOf(p, recs[k].code)
      {
      }
      if row.fundCode !in CodesOf(recs) {
        FundBasicsCodes(p);
        IndexOfFirst(p, row.fundCode);
        assert IndexOf(rows, row.fundCode) == |rows| - 1;
      }
    }
  }

  /** Every record's `_id` and code are its raw code. */
  lemma {:induction false} FundRecordIds(rows: seq<RawFund>)
    ensures forall k :: 0 <= k < |FundBasics(rows)| ==> FundBasics(rows)[k].id == FundBasics(rows)[k].code
  {
    if rows != [] {
      FundRecordIds(rows[..|rows| - 1]);
    }
  }

  /** A later row with a code already seen changes nothing. */
  lemma {:induction false} LaterRowIgnored(rows: seq<RawFund>, row: RawFund)
    requires exists i :: 0 <= i < |rows| && rows[i].fundCode == row.fundCode
    ensures FundBasics(rows + [row]) == FundBasics(rows)
  {
    var rs := rows + [row];
    assert rs[..|rs| - 1] == rows && rs[|rs| - 1] == row;
    FundBasicsCodes(rows);
    RawCodesMember(rows, row.fundCode);
    assert row.fundCode in CodesOf(FundBasics(rows));
  }

  /** One turn of the `forEach` that fills `fundBasicMap`: a row whose
      code is not yet a key is added under it; the map keeps its keys in
      insertion order, held here in `keyOrder`. */
  method AddFirstSeen(fundBasicMap: map<string, FundRecord>, keyOrder: seq<string>, item: RawFund,
                      ghost seen: seq<RawFund>)
    returns (newMap: map<string, FundRecord>, newOrder: seq<string>)
    requires keyOrder == CodesOf(FundBasics(seen))
    requires forall c :: c in fundBasicMap <==> c in keyOrder
    requires forall k :: 0 <= k < |keyOrder| ==> fundBasicMap[keyOrder[k]] == FundBasics(seen)[k]
    ensures newOrder == CodesOf(FundBasics(seen + [item]))
    ensures forall c :: c in newMap <==> c in newOrder
    ensures forall k :: 0 <= k < |newOrder| ==> newMap[newOrder[k]] == FundBasics(seen + [item])[k]
  {
    ghost var rs := seen + [item];
    assert rs[..|rs| - 1] == seen && rs[|rs| - 1] == item;
    newMap, newOrder := fundBasicMap, keyOrder;
    if item.fundCode !in fundBasicMap {
      assert FundBasics(rs) == FundBasics(seen) + [FundRecordOf(item)];
      CodesSnoc(FundBasics(seen), FundRecordOf(item));
      newMap := fundBasicMap[item.fundCode := FundRecordOf(item)];
      newOrder := keyOrder + [item.fundCode];
      forall k | 0 <= k < |newOrder|
        ensures newMap[newOrder[k]] == FundBasics(rs)[k]
      {
        if k < |keyOrder| {
          assert newOrder[k] == keyOrder[k] && keyOrder[k] != item.fundCode;
        }
      }
    } else {
      assert FundBasics(rs) == FundBasics(seen);
    }
  }

  /** `Array.from(map.values())`: the values in the order of their keys. */
  method ValuesInOrder(m: map<string, FundRecord>, keys: seq<string>) returns (values: seq<FundRecord>)
    requires forall c :: c in keys ==> c in m
    ensures |values| == |keys| && forall k :: 0 <= k < |keys| ==> values[k] == m[keys[k]]
  {
    values := [];
    var k := 0;
    while k < |keys|
      invariant 0 <= k <= |keys|
      invariant |values| == k && forall j :: 0 <= j < k ==> values[j] == m[keys[j]]
    {
      values := values + [m[keys[k]]];
      k := k + 1;
    }
  }

  /** The `forEach` that fills `fundBasicMap`, followed by
      `Array.from(fundBasicMap.values())`. */
  method DedupFunds(rows: seq<RawFund>) returns (records: seq<FundRecord>)
    ensures records == FundBasics(rows)
  {
    var fundBasicMap: map<string, FundRecord> := map[];
    var keyOrder: seq<string> := [];
    var i := 0;
    while i < |rows|
      invariant 0 <= i <= |rows|
      invariant keyOrder == CodesOf(FundBasics(rows[..i]))
      invariant forall c :: c in fundBasicMap <==> c in keyOrder
      invariant forall k :: 0 <= k < |keyOrder| ==> fundBasicMap[keyOrder[k]] == FundBasics(rows[..i])[k]
    {
      assert rows[..i + 1] == rows[..i] + [rows[i]];
      fundBasicMap, keyOrder := AddFirstSeen(fundBasicMap, keyOrder, rows[i], rows[..i]);
      i := i + 1;
    }
    assert rows[..i] == rows;
    records := ValuesInOrder(fundBasicMap, keyOrder);
    assert records == FundBasics(rows);
  }


  /** The `fund_basic` items: `_id` is the code, the rest is the document. */
  function FundItems(recs: seq<FundRecord>): (r: seq<Item>)
    ensures |r| == |recs|
    ensures forall k :: 0 <= k < |recs| ==>
              && r[k].id == Some(recs[k].id) && r[k].body.FundDoc?
              && r[k].body.code == recs[k].code && r[k].body.name == recs[k].name
              && r[k].body.fundType == recs[k].fundType
  {
    seq(|recs|, k requires 0 <= k < |recs| => Item(Some(recs[k].id), FundDoc(recs[k].code, recs[k].name, recs[k].fundType)))
  }

  /** The `fund_basic` items carry pairwise distinct ids, so no two writes
      of the migration target the same document. */
  lemma {:induction false} FundItemIdsDistinct(rows: seq<RawFund>)
    ensures var items := FundItems(FundBasics(rows));
      forall i, j :: 0 <= i < j < |items| ==> items[i].id != items[j].id
  {
    var recs := FundBasics(rows);
    FundBasicsCodes(rows);
    FundRecordIds(rows);
    forall i, j | 0 <= i < j < |recs|
      ensures recs[i].id != recs[j].id
    {
      assert CodesOf(recs)[i] == recs[i].code && CodesOf(recs)[j] == recs[j].code;
    }
  }

  // ---------------------------------------------------------------------
  // user_portfolio and fund_transactions: one record per raw row

  /** A holding record: no `_id`, total cost = shares * cost. */
  function PortfolioDocOf(row: RawFund): (d: Doc)
    ensures d.PortfolioDoc? && d.fundCode == row.fundCode
    ensures d.totalShares == row.shares && d.avgCost == row.cost
    ensures d.totalCost == d.totalShares * d.avgCost
  {
    PortfolioDoc(row.fundCode, row.shares, row.cost, row.shares * row.cost)
  }

  function Portfolios(rows: seq<RawFund>): (r: seq<Item>)
    ensures |r| == |rows|
    ensures forall i :: 0 <= i < |rows| ==> !Keyed(r[i]) && r[i].body == PortfolioDocOf(rows[i])
  {
    seq(|rows|, i requires 0 <= i < |rows| => Item(None, PortfolioDocOf(rows[i])))
  }

  /** `'买入'` is a purchase; every other value, absent included, a sale. */
  function KindOf(token: Option<string>): (k: TxKind)
    ensures k == Buy <==> token == Some(BuyToken)
  {
    if token == Some(BuyToken) then Buy else Sell
  }

  /** `Number(x || 0)` on an optional number: absent is 0. */
  function OrZero(x: Option<real>): (r: real)
    ensures x.None? ==> r == 0.0
    ensures x.Some? ==> r == x.value
  {
    if x.Some? then x.value else 0.0
  }

  function TransactionDocOf(row: RawTransaction): (d: Doc)
    ensures d.TransactionDoc? && d.fundCode == row.fundCode && d.shares == row.shares
    ensures d.kind == Buy <==> row.kind == Some(BuyToken)
    ensures d.price == OrZero(row.price) && d.amount == OrZero(row.amount)
    ensures d.date == row.date && d.note == row.note
  {
    TransactionDoc(row.fundCode, KindOf(row.kind), row.date, row.shares, OrZero(row.price), OrZero(row.amount), row.note)
  }

  function Transactions(rows: seq<RawTransaction>): (r: seq<Item>)
    ensures |r| == |rows|
    ensures forall i :: 0 <= i < |rows| ==> !Keyed(r[i]) && r[i].body == TransactionDocOf(rows[i])
  {
    seq(|rows|, i requires 0 <= i < |rows| => Item(None, TransactionDocOf(rows[i])))
  }

  // ---------------------------------------------------------------------
  // The whole migration

  /** The three target collections. */
  datatype Stores = Stores(fundBasic: Store, userPortfolio: Store, fundTransactions: Store)

  /** The effect of one migration on the three collections. */
  function Load(st: Stores, rawFunds: seq<RawFund>, rawTrans: seq<RawTransaction>): (r: Stores)
    ensures |r.userPortfolio.inserted| == |st.userPortfolio.inserted| + |rawFunds|
    ensures |r.fundTransactions.inserted| == |st.fundTransactions.inserted| + |rawTrans|
  {
    WriteAllEffect(st.userPortfolio, Portfolios(rawFunds));
    UnkeyedSize(Portfolios(rawFunds));
    AllUnkeyedCount(Portfolios(rawFunds));
    WriteAllEffect(st.fundTransactions, Transactions(rawTrans));
    UnkeyedSize(Transactions(rawTrans));
    AllUnkeyedCount(Transactions(rawTrans));
    Stores(
      WriteAll(st.fundBasic, FundItems(FundBasics(rawFunds))),
      WriteAll(st.userPortfolio, Portfolios(rawFunds)),
      WriteAll(st.fundTransactions, Transactions(rawTrans)))
  }

  /** `exports.main`: transform the staging rows, write the three
      collections one after the other, and report the counts. */
  method Migrate(rawFunds: seq<RawFund>, rawTrans: seq<RawTransaction>,
                 fundBasic: Collection, userPortfolio: Collection, fundTransactions: Collection)
    returns (stats: Stats)
    requires fundBasic != userPortfolio && fundBasic != fundTransactions && userPortfolio != fundTransactions
    modifies fundBasic, userPortfolio, fundTransactions
    ensures Stores(fundBasic.State(), userPortfolio.State(), fundTransactions.State())
      == Load(old(Stores(fundBasic.State(), userPortfolio.State(), fundTransactions.State())), rawFunds, rawTrans)
    ensures stats == Stats(|FundBasics(rawFunds)|, |rawFunds|, |rawTrans|)
  {
    var fundRecords := DedupFunds(rawFunds);
    var portfolios := Portfolios(rawFunds);
    var transactions := Transactions(rawTrans);
    var _ := BatchWrite(fundBasic, FundItems(fundRecords));
    var _ := BatchWrite(userPortfolio, portfolios);
    var _ := BatchWrite(fundTransactions, transactions);
    stats := Stats(|fundRecords|, |portfolios|, |transactions|);
  }

  /** Running the migration again on the same staging rows: `fund_basic`'s
      keyed records stay as they were (and the whole collection does when
      no code is empty), while every holding and transaction is inserted a
      second time. */
  lemma {:induction false} MigrateTwice(st: Stores, rawFunds: seq<RawFund>, rawTrans: seq<RawTransaction>)
    ensures var once := Load(st, rawFunds, rawTrans);
      var twice := Load(once, rawFunds, rawTrans);
      && twice.fundBasic.keyed == once.fundBasic.keyed
      && ((forall i :: 0 <= i < |rawFunds| ==> rawFunds[i].fundCode != "") ==> twice.fundBasic == once.fundBasic)
      && twice.userPortfolio.inserted
         == st.userPortfolio.inserted + Unkeyed(Portfolios(rawFunds)) + Unkeyed(Portfolios(rawFunds))
      && |twice.userPortfolio.inserted| == |st.userPortfolio.inserted| + 2 * |rawFunds|
      && twice.fundTransactions.inserted
         == st.fundTransactions.inserted + Unkeyed(Transactions(rawTrans)) + Unkeyed(Transactions(rawTrans))
      && |twice.fundTransactions.inserted| == |st.fundTransactions.inserted| + 2 * |rawTrans|
  {
    var funds := FundItems(FundBasics(rawFunds));
    KeyedWritesIdempotent(st.fundBasic, funds);
    if forall i :: 0 <= i < |rawFunds| ==> rawFunds[i].fundCode != "" {
      FundBasicsCodes(rawFunds);
      forall k | 0 <= k < |funds| ensures Keyed(funds[k]) {
        var c := FundBasics(rawFunds)[k].code;
        assert c == CodesOf(FundBasics(rawFunds))[k];
        RawCodesMember(rawFunds, c);
        assert FundBasics(rawFunds)[k].id == c by { FundRecordIds(rawFunds); }
      }
      AllKeyedIdempotent(st.fundBasic, funds);
    }
    UnkeyedWritesDuplicate(st.userPortfolio, Portfolios(rawFunds));
    AllUnkeyedCount(Portfolios(rawFunds));
    UnkeyedWritesDuplicate(st.fundTransactions, Transactions(rawTrans));
    AllUnkeyedCount(Transactions(rawTrans));
  }
}
