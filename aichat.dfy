/** The SQL side of the inventory chat assistant (backend/services/aiChat.ts):
    `generateSQL` turns the intent the language model extracted from a
    question into a query text with `?` placeholders and the values bound
    to them. The query texts are written with each run of whitespace of the
    source's template literals collapsed to one space; every text is split
    into short pieces so that facts about its characters stay cheap. */
module AiChat {
  import opened Basics

  datatype Intent = GetStock | LowStock | MoveHistory | Forecast | Unknown

  /** `IntentResult`; `Unknown` also stands for any intent string outside
      the four the switch names. */
  datatype IntentResult = IntentResult(intent: Intent, product: Option<string>, warehouse: Option<string>, timeRange: Option<string>)

  datatype SqlQuery = SqlQuery(query: string, params: seq<string>)

  /** `%${value}%`: a LIKE pattern matching any name containing `value`. */
  function Like(value: string): string {
    "%" + value + "%"
  }

  const Mark: string := "?"

  // ----- GET_STOCK with a product and a warehouse -----

  const StockPair1: string := "SELECT p.name as " + "product_name, " + "p.sku, "
  const StockPair2: string := "w.name as " + "warehouse_name, " + "COALESCE(SUM(CASE WHEN "
  const StockPair3: string := "sm.movement_type = 'in' " + "THEN sm.quantity " + "ELSE -sm.quantity END), "
  const StockPair4: string := "0) as current_stock, " + "p.reorder_point " + "FROM products p "
  const StockPair5: string := "LEFT JOIN stock_moves sm " + "ON p.id = sm.product_id " + "LEFT JOIN warehouses w "
  const StockPair6: string := "ON sm.warehouse_id = w.id"
  const NameLikePrefix: string := " WHERE p.name LIKE "
  const WarehouseLikePrefix: string := " AND w.name LIKE "
  const StockPairGroup: string := " GROUP BY p.id, w.id"

  const StockPairHead: string := StockPair1 + StockPair2 + StockPair3
  const StockPairJoins: string := StockPair4 + StockPair5 + StockPair6
  const StockPairWhere: string := NameLikePrefix + Mark + (WarehouseLikePrefix + Mark) + StockPairGroup
  const StockPairSql: string := StockPairHead + StockPairJoins + StockPairWhere

  // ----- GET_STOCK with a product only -----

  const ProductStock1: string := "p.total_stock as " + "current_stock, " + "p.reorder_point "
  const ProductStock2: string := "FROM products p"
  const ProductStockSql: string := StockPair1 + ProductStock1 + ProductStock2 + (NameLikePrefix + Mark)

  // ----- GET_STOCK otherwise -----

  const StockList1: string := "SELECT name, sku, " + "total_stock, " + "reorder_point "
  const StockList2: string := "FROM products LIMIT 10"
  const StockListSql: string := StockList1 + StockList2

  // ----- LOW_STOCK -----

  const LowStock1: string := "SELECT name as " + "product_name, " + "sku, "
  const LowStock2: string := "total_stock as " + "current_stock, " + "reorder_point, "
  const LowStock3: string := "(reorder_point - " + "total_stock) as " + "shortage "
  const LowStock4: string := "FROM products " + "WHERE total_stock <= " + "reorder_point AND "
  const LowStock5: string := "status = 'active' " + "ORDER BY shortage DESC"
  const LowStockSql: string := LowStock1 + LowStock2 + LowStock3 + (LowStock4 + LowStock5)

  // ----- MOVE_HISTORY -----

  const MoveBase1: string := "SELECT sm.id, " + "p.name as " + "product_name, "
  const MoveBase2: string := "sm.quantity, " + "sm.movement_type, " + "w.name as "
  const MoveBase3: string := "warehouse_name, " + "sm.created_at as " + "timestamp "
  const MoveBase4: string := "FROM stock_moves sm " + "JOIN products p " + "ON sm.product_id = p.id "
  const MoveBase5: string := "LEFT JOIN warehouses w " + "ON sm.warehouse_id = w.id" + " WHERE 1=1"
  const MoveBase: string := MoveBase1 + MoveBase2 + MoveBase3 + (MoveBase4 + MoveBase5)

  const NameFilterPrefix: string := " AND p.name LIKE "
  const NameFilter: string := NameFilterPrefix + Mark
  const CreatedSince: string := " AND sm.created_at >= "
  const SevenDaysAgo: string := "datetime('now', " + "'-7 days')"
  const ThirtyDaysAgo: string := "datetime('now', " + "'-30 days')"
  const WeekFilter: string := CreatedSince + SevenDaysAgo
  const MonthFilter: string := CreatedSince + ThirtyDaysAgo
  const MoveOrder: string := " ORDER BY sm.created_at" + " DESC LIMIT 20"

  // ----- FORECAST -----

  const Forecast1: string := "SELECT p.name as " + "product_name, " + "p.total_stock as "
  const Forecast2: string := "current_stock, " + "COALESCE(SUM(CASE WHEN " + "sm.movement_type = 'in' "
  const Forecast3: string := "THEN sm.quantity " + "ELSE 0 END), 0) " + "as total_in, "
  const Forecast4: string := "COALESCE(SUM(CASE WHEN " + "sm.movement_type = " + "'out' "
  const Forecast5: string := "THEN sm.quantity " + "ELSE 0 END), 0) " + "as total_out, "
  const Forecast6: string := "COUNT(*) as " + "transaction_count " + "FROM products p "
  const Forecast7: string := "LEFT JOIN stock_moves sm " + "ON p.id = sm.product_id " + "AND sm.created_at >= "
  const Forecast8: string := "datetime('now', " + "'-30 days') " + "WHERE p.status = "
  const Forecast9: string := "'active'"
  const ForecastHead: string :=
    Forecast1 + Forecast2 + Forecast3 + (Forecast4 + Forecast5 + Forecast6) + (Forecast7 + Forecast8 + Forecast9)
  const ForecastTail: string := " GROUP BY p.id" + " LIMIT 10"

  // ----- default -----

  const CountSql: string := "SELECT COUNT(*) as " + "total_products " + "FROM products"

  /** The time filter of MOVE_HISTORY: a range mentioning "week" wins over
      one mentioning "month"; any other range adds nothing. */
  function TimeFilter(timeRange: Option<string>): string {
    if Truthy(timeRange) then
      if Contains(timeRange.value, "week") then WeekFilter
      else if Contains(timeRange.value, "month") then MonthFilter
      else []
    else []
  }

  /** GET_STOCK: stock per warehouse when both a product and a warehouse
      are named, the product's total when only a product is named, and the
      first ten products otherwise (a warehouse alone is ignored). */
  function StockSql(product: Option<string>, warehouse: Option<string>): SqlQuery {
    if Truthy(product) && Truthy(warehouse) then
      SqlQuery(StockPairSql, [Like(product.value), Like(warehouse.value)])
    else if Truthy(product) then
      SqlQuery(ProductStockSql, [Like(product.value)])
    else
      SqlQuery(StockListSql, [])
  }

  /** MOVE_HISTORY: the query and its parameters are grown step by step. */
  function MoveHistorySql(product: Option<string>, timeRange: Option<string>): SqlQuery {
    var query := MoveBase;
    var params: seq<string> := [];
    var query := if Truthy(product) then query + NameFilter else query;
    var params := if Truthy(product) then params + [Like(product.value)] else params;
    var query := query + TimeFilter(timeRange);
    SqlQuery(query + MoveOrder, params)
  }

  /** FORECAST: movements of the last thirty days per active product,
      narrowed to the named product when there is one. */
  function ForecastSql(product: Option<string>): SqlQuery {
    SqlQuery(ForecastHead + (if Truthy(product) then NameFilter else []) + ForecastTail,
             if Truthy(product) then [Like(product.value)] else [])
  }

  /** `generateSQL`. The values the user named reach the query only as
      bound parameters: each is the LIKE pattern of the product (first) or
      of the warehouse (second, and only for GET_STOCK). */
  function GenerateSql(i: IntentResult): (r: SqlQuery)
    ensures |r.params| <= 2
    ensures |r.params| >= 1 ==> Truthy(i.product) && r.params[0] == Like(i.product.value)
    ensures |r.params| == 2 ==> i.intent == GetStock && Truthy(i.warehouse) && r.params[1] == Like(i.warehouse.value)
    ensures Truthy(i.product) && (i.intent == GetStock || i.intent == MoveHistory || i.intent == Forecast) ==> |r.params| >= 1
    ensures Truthy(i.product) && Truthy(i.warehouse) && i.intent == GetStock ==> |r.params| == 2
    ensures !Truthy(i.product) || i.intent == LowStock || i.intent == Unknown ==> r.params == []
  {
    match i.intent
    case GetStock => StockSql(i.product, i.warehouse)
    case LowStock => SqlQuery(LowStockSql, [])
    case MoveHistory => MoveHistorySql(i.product, i.timeRange)
    case Forecast => ForecastSql(i.product)
    case Unknown => SqlQuery(CountSql, [])
  }

  // ---------------------------------------------------------------------
  // Placeholders of the query texts
  // ---------------------------------------------------------------------

  /** The query text holds one `?` placeholder per bound parameter, so the
      driver binds every value and leaves no placeholder unbound. */
  predicate Balanced(q: SqlQuery) {
    Occurrences(q.query, '?') == |q.params|
  }

  lemma Absent3(a: string, b: string, c: string, ch: char)
    requires ch !in a && ch !in b && ch !in c
    ensures ch !in a + b + c
  {
  }

  lemma Count3(a: string, b: string, c: string, ch: char)
    ensures Occurrences(a + b + c, ch) == Occurrences(a, ch) + Occurrences(b, ch) + Occurrences(c, ch)
  {
  }

  lemma CountAbsent(s: string, ch: char)
    requires ch !in s
    ensures Occurrences(s, ch) == 0
  {
  }

  /** A `?`-free prefix followed by one mark holds one placeholder. */
  lemma CountMarked(prefix: string)
    requires '?' !in prefix
    ensures Occurrences(prefix + Mark, '?') == 1
  {
    assert multiset(Mark) == multiset{'?'};
  }

  lemma StockPair1Clear() ensures '?' !in StockPair1 {}
  lemma StockPair2Clear() ensures '?' !in StockPair2 {}
  lemma StockPair3Clear() ensures '?' !in StockPair3 {}
  lemma StockPair4Clear() ensures '?' !in StockPair4 {}
  lemma StockPair5Clear() ensures '?' !in StockPair5 {}
  lemma StockPairTailClear() ensures '?' !in StockPair6 && '?' !in StockPairGroup {}
  lemma LikePrefixesClear() ensures '?' !in NameLikePrefix && '?' !in WarehouseLikePrefix && '?' !in NameFilterPrefix {}
  lemma ProductStockClear() ensures '?' !in ProductStock1 && '?' !in ProductStock2 {}
  lemma StockList1Clear() ensures '?' !in StockList1 {}
  lemma StockList2Clear() ensures '?' !in StockList2 {}
  lemma LowStock1Clear() ensures '?' !in LowStock1 {}
  lemma LowStock2Clear() ensures '?' !in LowStock2 {}
  lemma LowStock3Clear() ensures '?' !in LowStock3 {}
  lemma LowStock4Clear() ensures '?' !in LowStock4 {}
  lemma LowStock5Clear() ensures '?' !in LowStock5 {}
  lemma MoveBase1Clear() ensures '?' !in MoveBase1 {}
  lemma MoveBase2Clear() ensures '?' !in MoveBase2 {}
  lemma MoveBase3Clear() ensures '?' !in MoveBase3 {}
  lemma MoveBase4Clear() ensures '?' !in MoveBase4 {}
  lemma MoveBase5Clear() ensures '?' !in MoveBase5 {}
  lemma CreatedSinceClear() ensures '?' !in CreatedSince {}
  lemma DaysAgoClear() ensures '?' !in SevenDaysAgo && '?' !in ThirtyDaysAgo {}
  lemma MoveOrderClear() ensures '?' !in MoveOrder {}
  lemma Forecast1Clear() ensures '?' !in Forecast1 {}
  lemma Forecast2Clear() ensures '?' !in Forecast2 {}
  lemma Forecast3Clear() ensures '?' !in Forecast3 {}
  lemma Forecast4Clear() ensures '?' !in Forecast4 {}
  lemma Forecast5Clear() ensures '?' !in Forecast5 {}
  lemma Forecast6Clear() ensures '?' !in Forecast6 {}
  lemma Forecast7Clear() ensures '?' !in Forecast7 {}
  lemma Forecast8Clear() ensures '?' !in Forecast8 && '?' !in Forecast9 {}
  lemma ForecastTailClear() ensures '?' !in ForecastTail {}
  lemma CountSqlClear() ensures '?' !in CountSql {}

  lemma StockPairHeadClear() ensures '?' !in StockPairHead
  {
    StockPair1Clear();
    StockPair2Clear();
    StockPair3Clear();
    Absent3(StockPair1, StockPair2, StockPair3, '?');
  }

  lemma StockPairJoinsClear() ensures '?' !in StockPairJoins
  {
    StockPair4Clear();
    StockPair5Clear();
    StockPairTailClear();
    Absent3(StockPair4, StockPair5, StockPair6, '?');
  }

  lemma StockPairWhereCount() ensures Occurrences(StockPairWhere, '?') == 2
  {
    LikePrefixesClear();
    StockPairTailClear();
    CountMarked(NameLikePrefix);
    CountMarked(WarehouseLikePrefix);
    CountAbsent(StockPairGroup, '?');
    Count3(NameLikePrefix + Mark, WarehouseLikePrefix + Mark, StockPairGroup, '?');
  }

  /** A `?`-free text in front adds no placeholder. */
  lemma CountAfterClear(a: string, b: string, ch: char)
    requires ch !in a
    ensures Occurrences(a + b, ch) == Occurrences(b, ch)
  {
  }

  lemma StockPairFrontClear() ensures '?' !in StockPairHead + StockPairJoins
  {
    StockPairHeadClear();
    StockPairJoinsClear();
  }

  /** The GET_STOCK text for a product in a warehouse has two placeholders. */
  lemma StockPairCount() ensures Occurrences(StockPairSql, '?') == 2
  {
    StockPairFrontClear();
    StockPairWhereCount();
    CountAfterClear(StockPairHead + StockPairJoins, StockPairWhere, '?');
  }

  /** The GET_STOCK text for a product alone has one placeholder. */
  lemma ProductStockCount() ensures Occurrences(ProductStockSql, '?') == 1
  {
    StockPair1Clear();
    ProductStockClear();
    LikePrefixesClear();
    Absent3(StockPair1, ProductStock1, ProductStock2, '?');
    CountMarked(NameLikePrefix);
    CountAfterClear(StockPair1 + ProductStock1 + ProductStock2, NameLikePrefix + Mark, '?');
  }

  lemma StockListClear() ensures '?' !in StockListSql
  {
    StockList1Clear();
    StockList2Clear();
    Absent3(StockList1, StockList2, [], '?');
    assert StockList1 + StockList2 + [] == StockListSql;
  }

  lemma LowStockClear() ensures '?' !in LowStockSql
  {
    LowStock1Clear();
    LowStock2Clear();
    LowStock3Clear();
    LowStock4Clear();
    LowStock5Clear();
    Absent3(LowStock4, LowStock5, [], '?');
    assert LowStock4 + LowStock5 + [] == LowStock4 + LowStock5;
    AbsentFromFour(LowStock1, LowStock2, LowStock3, LowStock4 + LowStock5, '?');
  }

  lemma MoveBaseClear() ensures '?' !in MoveBase
  {
    MoveBase1Clear();
    MoveBase2Clear();
    MoveBase3Clear();
    MoveBase4Clear();
    MoveBase5Clear();
    Absent3(MoveBase4, MoveBase5, [], '?');
    assert MoveBase4 + MoveBase5 + [] == MoveBase4 + MoveBase5;
    AbsentFromFour(MoveBase1, MoveBase2, MoveBase3, MoveBase4 + MoveBase5, '?');
  }

  lemma AbsentFromFour(a: string, b: string, c: string, d: string, ch: char)
    requires ch !in a && ch !in b && ch !in c && ch !in d
    ensures ch !in a + b + c + d
  {
  }

  lemma ForecastHeadClear() ensures '?' !in ForecastHead
  {
    Forecast1Clear();
    Forecast2Clear();
    Forecast3Clear();
    Forecast4Clear();
    Forecast5Clear();
    Forecast6Clear();
    Forecast7Clear();
    Forecast8Clear();
    Absent3(Forecast1, Forecast2, Forecast3, '?');
    Absent3(Forecast4, Forecast5, Forecast6, '?');
    Absent3(Forecast7, Forecast8, Forecast9, '?');
    Absent3(Forecast1 + Forecast2 + Forecast3, Forecast4 + Forecast5 + Forecast6, Forecast7 + Forecast8 + Forecast9, '?');
  }

  lemma TimeFilterClear(timeRange: Option<string>) ensures '?' !in TimeFilter(timeRange)
  {
    CreatedSinceClear();
    DaysAgoClear();
  }

  lemma NameFilterCount() ensures Occurrences(NameFilter, '?') == 1
  {
    LikePrefixesClear();
    CountMarked(NameFilterPrefix);
  }

  /** Only the middle part of a text framed by `?`-free parts counts. */
  lemma CountFramed(a: string, b: string, c: string, ch: char)
    requires ch !in a && ch !in c
    ensures Occurrences(a + b + c, ch) == Occurrences(b, ch)
  {
  }

  lemma CountFramedPair(a: string, b: string, c: string, d: string, ch: char)
    requires ch !in a && ch !in c && ch !in d
    ensures Occurrences(a + b + c + d, ch) == Occurrences(b, ch)
  {
  }

  /** The MOVE_HISTORY text has a placeholder exactly when it filters on
      the product name. */
  lemma MoveHistoryTextCount(product: Option<string>, timeRange: Option<string>)
    ensures Occurrences(MoveHistorySql(product, timeRange).query, '?') == if Truthy(product) then 1 else 0
  {
    MoveBaseClear();
    TimeFilterClear(timeRange);
    MoveOrderClear();
    if Truthy(product) {
      NameFilterCount();
      CountFramedPair(MoveBase, NameFilter, TimeFilter(timeRange), MoveOrder, '?');
    } else {
      CountFramed(MoveBase, TimeFilter(timeRange), MoveOrder, '?');
      CountAbsent(TimeFilter(timeRange), '?');
    }
  }

  lemma MoveHistoryParamCount(product: Option<string>, timeRange: Option<string>)
    ensures |MoveHistorySql(product, timeRange).params| == if Truthy(product) then 1 else 0
  {
  }

  lemma MoveHistoryCount(product: Option<string>, timeRange: Option<string>)
    ensures Balanced(MoveHistorySql(product, timeRange))
  {
    MoveHistoryTextCount(product, timeRange);
    MoveHistoryParamCount(product, timeRange);
  }

  /** The FORECAST text has a placeholder exactly when it filters on the
      product name. */
  lemma ForecastTextCount(product: Option<string>)
    ensures Occurrences(ForecastSql(product).query, '?') == if Truthy(product) then 1 else 0
  {
    ForecastHeadClear();
    ForecastTailClear();
    if Truthy(product) {
      NameFilterCount();
      CountFramed(ForecastHead, NameFilter, ForecastTail, '?');
    } else {
      CountFramed(ForecastHead, [], ForecastTail, '?');
    }
  }

  lemma ForecastParamCount(product: Option<string>)
    ensures |ForecastSql(product).params| == if Truthy(product) then 1 else 0
  {
  }

  lemma ForecastCount(product: Option<string>)
    ensures Balanced(ForecastSql(product))
  {
    ForecastTextCount(product);
    ForecastParamCount(product);
  }

  lemma StockCount(product: Option<string>, warehouse: Option<string>)
    ensures Balanced(StockSql(product, warehouse))
  {
    if Truthy(product) && Truthy(warehouse) {
      StockPairCount();
    } else if Truthy(product) {
      ProductStockCount();
    } else {
      StockListClear();
      CountAbsent(StockListSql, '?');
    }
  }

  lemma LowStockCount() ensures Balanced(SqlQuery(LowStockSql, []))
  {
    LowStockClear();
    CountAbsent(LowStockSql, '?');
  }

  lemma CountSqlCount() ensures Balanced(SqlQuery(CountSql, []))
  {
    CountSqlClear();
    CountAbsent(CountSql, '?');
  }

  lemma GetStockBalanced(i: IntentResult)
    requires i.intent == GetStock
    ensures Balanced(GenerateSql(i))
  {
    StockCount(i.product, i.warehouse);
  }

  lemma LowStockBalanced(i: IntentResult)
    requires i.intent == LowStock
    ensures Balanced(GenerateSql(i))
  {
    LowStockCount();
  }

  lemma MoveHistoryBalanced(i: IntentResult)
    requires i.intent == MoveHistory
    ensures Balanced(GenerateSql(i))
  {
    MoveHistoryCount(i.product, i.timeRange);
  }

  lemma ForecastBalanced(i: IntentResult)
    requires i.intent == Forecast
    ensures Balanced(GenerateSql(i))
  {
    ForecastCount(i.product);
  }

  lemma UnknownBalanced(i: IntentResult)
    requires i.intent == Unknown
    ensures Balanced(GenerateSql(i))
  {
    CountSqlCount();
  }

  /** Every text `generateSQL` produces holds exactly as many `?`
      placeholders as it binds parameters. */
  lemma PlaceholdersMatchParams(i: IntentResult)
    ensures Balanced(GenerateSql(i))
  {
    if i.intent == GetStock {
      GetStockBalanced(i);
    } else if i.intent == LowStock {
      LowStockBalanced(i);
    } else if i.intent == MoveHistory {
      MoveHistoryBalanced(i);
    } else if i.intent == Forecast {
      ForecastBalanced(i);
    } else {
      UnknownBalanced(i);
    }
  }

  // ---------------------------------------------------------------------
  // What decides the query text
  // ---------------------------------------------------------------------

  lemma TimeFiltersDiffer()
    ensures |WeekFilter| > 0 && |MonthFilter| == |WeekFilter| + 1
  {
  }

  /** A time range naming a week filters on the last seven days, even when
      it also names a month; one naming only a month filters on the last
      thirty days; any other range, and no range, filters on nothing. */
  lemma TimeFilterChoice(timeRange: Option<string>)
    ensures TimeFilter(timeRange) == WeekFilter <==> Truthy(timeRange) && Contains(timeRange.value, "week")
    ensures TimeFilter(timeRange) == MonthFilter <==>
      Truthy(timeRange) && !Contains(timeRange.value, "week") && Contains(timeRange.value, "month")
    ensures TimeFilter(timeRange) == [] <==>
      !Truthy(timeRange) || (!Contains(timeRange.value, "week") && !Contains(timeRange.value, "month"))
  {
    TimeFiltersDiffer();
  }

  /** "last week", the first example range of the source's comment,
      selects the seven-day filter. */
  lemma LastWeekFilter()
    ensures TimeFilter(Some("last week")) == WeekFilter
  {
    ContainsMiddle("last ", "week", "");
    assert "last " + "week" + "" == "last week";
  }

  /** "last month" selects the thirty-day filter. */
  lemma LastMonthFilter()
    ensures TimeFilter(Some("last month")) == MonthFilter
  {
    LacksCharNotContains("last month", "week", 'w');
    ContainsMiddle("last ", "month", "");
    assert "last " + "month" + "" == "last month";
  }

  /** A range naming neither adds no filter. */
  lemma TodayNoFilter()
    ensures TimeFilter(Some("today")) == []
  {
    LacksCharNotContains("today", "week", 'w');
    LacksCharNotContains("today", "month", 'm');
  }

  /** The query text depends on the values the user named only through
      whether they are given, and on the time range only through the filter
      it selects: two intents that agree on those get the same text, and
      the same number of parameters. */
  lemma QueryTextIgnoresValues(a: IntentResult, b: IntentResult)
    requires a.intent == b.intent
    requires Truthy(a.product) == Truthy(b.product) && Truthy(a.warehouse) == Truthy(b.warehouse)
    requires TimeFilter(a.timeRange) == TimeFilter(b.timeRange)
    ensures GenerateSql(a).query == GenerateSql(b).query
    ensures |GenerateSql(a).params| == |GenerateSql(b).params|
  {
  }

  /** With no product named, GET_STOCK lists the first ten products with
      no parameters, whatever warehouse is named. */
  lemma WarehouseAloneIgnored(i: IntentResult)
    requires i.intent == GetStock && !Truthy(i.product)
    ensures GenerateSql(i) == GenerateSql(i.(warehouse := None)) == SqlQuery(StockListSql, [])
  {
  }

  lemma Framed(a: string, b: string, c: string)
    ensures |a + b + c| >= |a| + |c|
    ensures (a + b + c)[..|a|] == a
    ensures (a + b + c)[|a + b + c| - |c|..] == c
  {
  }

  /** Every MOVE_HISTORY text starts with the joined select and ends with
      the ordering by time, newest first, limited to twenty rows; the
      filters sit between the two. */
  lemma MoveHistoryFrame(product: Option<string>, timeRange: Option<string>)
    ensures var q := MoveHistorySql(product, timeRange).query;
      && |q| >= |MoveBase| + |MoveOrder|
      && q[..|MoveBase|] == MoveBase
      && q[|q| - |MoveOrder|..] == MoveOrder
  {
    var filters := MoveFilters(product, timeRange);
    MoveHistoryParts(product, timeRange);
    Framed(MoveBase, filters, MoveOrder);
  }

  /** The filters MOVE_HISTORY appends to its base select. */
  function MoveFilters(product: Option<string>, timeRange: Option<string>): string {
    (if Truthy(product) then NameFilter else []) + TimeFilter(timeRange)
  }

  lemma MoveHistoryParts(product: Option<string>, timeRange: Option<string>)
    ensures MoveHistorySql(product, timeRange).query == MoveBase + MoveFilters(product, timeRange) + MoveOrder
  {
    if Truthy(product) {
      assert MoveBase + NameFilter + TimeFilter(timeRange) == MoveBase + (NameFilter + TimeFilter(timeRange));
    } else {
      assert [] + TimeFilter(timeRange) == TimeFilter(timeRange);
    }
  }
}
