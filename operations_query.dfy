/** The filtered list query of GET /api/operations (backend/routes/operations.ts):
    the text it builds and the positional parameters it binds. The database
    layer rewrites every `$n` into SQLite's `?`, so the values bind by
    position: what matters is one placeholder per value, in the order of
    the values. */
module OperationsQuery {
  import opened Basics

  predicate IsDigit(c: char) {
    '0' <= c <= '9'
  }

  /** The numbers of the `$n` placeholders of a query, left to right (the
      list query has at most four, so each is a single digit). */
  function Placeholders(s: string): seq<nat> {
    if s == [] then []
    else if s[0] == '$' && |s| >= 2 && IsDigit(s[1]) then [s[1] as int - '0' as int] + Placeholders(s[2..])
    else Placeholders(s[1..])
  }

  /** from, from + 1, ..., from + count - 1 */
  function Numbered(from: nat, count: nat): (r: seq<nat>)
    ensures |r| == count
    ensures forall k | 0 <= k < count :: r[k] == from + k
    decreases count
  {
    if count == 0 then [] else [from] + Numbered(from + 1, count - 1)
  }

  predicate EndsClear(s: string) {
    s == [] || s[|s| - 1] != '$'
  }

  lemma {:induction false} NoPlaceholders(s: string)
    requires '$' !in s
    ensures Placeholders(s) == []
  {
    if s != [] {
      assert '$' !in s[1..];
      NoPlaceholders(s[1..]);
    }
  }

  /** Placeholders of a concatenation are those of its parts, provided the
      first part does not end in a dangling `$`. */
  lemma {:induction false} PlaceholdersAppend(a: string, b: string)
    requires EndsClear(a)
    ensures Placeholders(a + b) == Placeholders(a) + Placeholders(b)
  {
    if a == [] {
      assert a + b == b;
    } else {
      var ab := a + b;
      assert ab[0] == a[0];
      if a[0] == '$' && |a| >= 2 && IsDigit(a[1]) {
        assert ab[1] == a[1];
        assert ab[2..] == a[2..] + b;
        assert EndsClear(a[2..]);
        PlaceholdersAppend(a[2..], b);
      } else {
        assert a[0] == '$' ==> |a| >= 2 && ab[1] == a[1];
        assert ab[1..] == a[1..] + b;
        assert EndsClear(a[1..]);
        PlaceholdersAppend(a[1..], b);
      }
    }
  }

  /** A text free of `$` in front adds no placeholder. */
  lemma PlaceholdersAfterClear(a: string, b: string)
    requires '$' !in a
    ensures Placeholders(a + b) == Placeholders(b)
  {
    NoPlaceholders(a);
    PlaceholdersAppend(a, b);
  }

  /** A text free of `$` behind adds no placeholder. */
  lemma PlaceholdersBeforeClear(a: string, b: string)
    requires EndsClear(a) && '$' !in b
    ensures Placeholders(a + b) == Placeholders(a)
  {
    NoPlaceholders(b);
    PlaceholdersAppend(a, b);
  }

  /** The text of the list query before its filters, in four parts. */
  const ListColumns: string :=
    "SELECT o.*, " +
    "p.name as product_name, " +
    "p.sku, "

  const ListNames: string :=
    "w1.name as from_" + "warehouse_name, " +
    "w2.name as to_" + "warehouse_name, " +
    "u.name as " + "created_by_name "

  const ListJoinProducts: string :=
    "FROM operations o " +
    "LEFT JOIN products p " +
    "ON o.product_id = p.id "

  const ListJoinFrom: string :=
    "LEFT JOIN warehouses w1 " +
    "ON o.from_warehouse_id = w1.id "

  const ListJoinTo: string :=
    "LEFT JOIN warehouses w2 " +
    "ON o.to_warehouse_id = w2.id "

  const ListJoinUsers: string :=
    "LEFT JOIN users u " +
    "ON o.created_by = u.id " +
    "WHERE 1=1"

  const ListJoins: string := ListJoinProducts + ListJoinFrom
  const ListJoinsTail: string := ListJoinTo + ListJoinUsers

  const ListSelect: string := ListColumns + ListNames + ListJoins + ListJoinsTail

  const ListOrder: string := " ORDER BY o.created_at" + " DESC LIMIT 100"

  lemma ListColumnsClear()
    ensures '$' !in ListColumns
  {
  }

  lemma ListNamesClear()
    ensures '$' !in ListNames
  {
  }

  lemma ListJoinProductsClear()
    ensures '$' !in ListJoinProducts
  {
  }

  lemma ListJoinFromClear()
    ensures '$' !in ListJoinFrom
  {
  }

  lemma ListJoinToClear()
    ensures '$' !in ListJoinTo
  {
  }

  lemma ListJoinUsersClear()
    ensures '$' !in ListJoinUsers
  {
  }

  lemma ListJoinsClear()
    ensures '$' !in ListJoins
  {
    ListJoinProductsClear();
    ListJoinFromClear();
  }

  lemma ListJoinsTailClear()
    ensures '$' !in ListJoinsTail
  {
    ListJoinToClear();
    ListJoinUsersClear();
  }

  lemma ListOrderClear()
    ensures '$' !in ListOrder
  {
  }

  lemma NoDollarConcat(a: string, b: string, c: string, d: string)
    requires '$' !in a && '$' !in b && '$' !in c && '$' !in d
    ensures '$' !in a + b + c + d
  {
  }

  lemma ListSelectClear()
    ensures '$' !in ListSelect
  {
    ListColumnsClear();
    ListNamesClear();
    ListJoinsClear();
    ListJoinsTailClear();
    NoDollarConcat(ListColumns, ListNames, ListJoins, ListJoinsTail);
  }

  /** The condition each filter adds before its placeholder, in the order
      the handler tests `type`, `status`, `startDate` and `endDate`. */
  const TypeCondition: string := " AND o.type = "
  const StatusCondition: string := " AND o.status = "
  const StartCondition: string := " AND o.created_at >= "
  const EndCondition: string := " AND o.created_at <= "

  const ListConditions: seq<string> := [TypeCondition, StatusCondition, StartCondition, EndCondition]

  lemma ListConditionsClear()
    ensures forall k | 0 <= k < |ListConditions| :: '$' !in ListConditions[k]
  {
    assert '$' !in TypeCondition && '$' !in StatusCondition;
    assert '$' !in StartCondition && '$' !in EndCondition;
  }

  /** `$${paramIndex}` */
  function Placeholder(index: nat): (s: string)
    requires 1 <= index < 10
    ensures Placeholders(s) == [index] && multiset(s)['$'] == 1
  {
    ['$', DigitChar(index)]
  }

  /** The value a filter pushes onto the parameters: itself when truthy. */
  function Kept(value: Option<string>): seq<string> {
    if Truthy(value) then [value.value] else []
  }

  /** The values of the truthy filters, in order. */
  function TruthyValues(filters: seq<Option<string>>): (vs: seq<string>)
    ensures |vs| <= |filters|
    ensures forall k | 0 <= k < |vs| :: vs[k] != ""
    ensures (forall j | 0 <= j < |filters| :: Truthy(filters[j])) ==> |vs| == |filters|
    decreases |filters|
  {
    if filters == [] then [] else Kept(filters[0]) + TruthyValues(filters[1..])
  }

  /** What one filter adds to the query: its condition and the next
      placeholder when its value is truthy, nothing otherwise. */
  function FilterText(condition: string, value: Option<string>, index: nat): string
    requires 1 <= index < 10
  {
    if Truthy(value) then condition + Placeholder(index) else []
  }

  /** The text all filters add, numbering placeholders from `index`. */
  function Filters(conditions: seq<string>, values: seq<Option<string>>, index: nat): string
    requires |conditions| == |values| && 1 <= index && index + |values| <= 10
    decreases |values|
  {
    if values == [] then []
    else
      FilterText(conditions[0], values[0], index) +
      Filters(conditions[1..], values[1..], if Truthy(values[0]) then index + 1 else index)
  }

  lemma EndsClearAppend(a: string, b: string)
    requires EndsClear(a) && EndsClear(b)
    ensures EndsClear(a + b)
  {
    if b == [] {
      assert a + b == a;
    } else {
      assert (a + b)[|a + b| - 1] == b[|b| - 1];
    }
  }

  /** One filter adds its own placeholder when its value is truthy, and
      nothing else that looks like one. */
  lemma FilterTextPlaceholders(condition: string, value: Option<string>, index: nat)
    requires 1 <= index < 10 && '$' !in condition
    ensures Placeholders(FilterText(condition, value, index)) == if Truthy(value) then [index] else []
    ensures multiset(FilterText(condition, value, index))['$'] == if Truthy(value) then 1 else 0
    ensures EndsClear(FilterText(condition, value, index))
  {
    if Truthy(value) {
      var p := Placeholder(index);
      PlaceholdersAfterClear(condition, p);
      assert (condition + p)[|condition + p| - 1] == p[1];
    }
  }

  /** The filters add exactly one placeholder per truthy value, numbered
      on from `index` in the order of the values, and never end in a
      dangling `$`. */
  lemma {:induction false} FiltersPlaceholders(conditions: seq<string>, values: seq<Option<string>>, index: nat)
    requires |conditions| == |values| && 1 <= index && index + |values| <= 10
    requires forall k | 0 <= k < |conditions| :: '$' !in conditions[k]
    ensures Placeholders(Filters(conditions, values, index)) == Numbered(index, |TruthyValues(values)|)
    ensures multiset(Filters(conditions, values, index))['$'] == |TruthyValues(values)|
    ensures EndsClear(Filters(conditions, values, index))
    decreases |values|
  {
    if values != [] {
      var next := if Truthy(values[0]) then index + 1 else index;
      var head := FilterText(conditions[0], values[0], index);
      var rest := Filters(conditions[1..], values[1..], next);
      FiltersPlaceholders(conditions[1..], values[1..], next);
      FilterTextPlaceholders(conditions[0], values[0], index);
      PlaceholdersAppend(head, rest);
      EndsClearAppend(head, rest);
      assert Filters(conditions, values, index) == head + rest;
    }
  }

  /** One `if (x) { queryText += ...; params.push(x); paramIndex++; }` step. */
  method AddFilter(queryText: string, params: seq<string>, paramIndex: nat, value: Option<string>, condition: string)
    returns (queryText': string, params': seq<string>, paramIndex': nat)
    requires 1 <= paramIndex < 10
    ensures queryText' == queryText + FilterText(condition, value, paramIndex)
    ensures params' == params + Kept(value)
    ensures paramIndex' == Step(value, paramIndex)
  {
    queryText', params', paramIndex' := queryText, params, paramIndex;
    if Truthy(value) {
      queryText' := queryText + condition + Placeholder(paramIndex);
      params' := params + [value.value];
      paramIndex' := paramIndex + 1;
    } else {
      assert queryText + [] == queryText;
    }
  }

  lemma TruthyValuesCons(v: Option<string>, vs: seq<Option<string>>)
    ensures TruthyValues([v] + vs) == Kept(v) + TruthyValues(vs)
  {
    assert ([v] + vs)[1..] == vs;
  }

  lemma TruthyValuesOfOne(d: Option<string>)
    ensures TruthyValues([d]) == Kept(d)
  {
    TruthyValuesCons(d, []);
    assert [d] + [] == [d] && Kept(d) + [] == Kept(d);
  }

  lemma TruthyValuesOfTwo(c: Option<string>, d: Option<string>)
    ensures TruthyValues([c, d]) == Kept(c) + Kept(d)
  {
    TruthyValuesOfOne(d);
    TruthyValuesCons(c, [d]);
    assert [c] + [d] == [c, d];
  }

  lemma TruthyValuesOfThree(b: Option<string>, c: Option<string>, d: Option<string>)
    ensures TruthyValues([b, c, d]) == Kept(b) + (Kept(c) + Kept(d))
  {
    TruthyValuesOfTwo(c, d);
    TruthyValuesCons(b, [c, d]);
    assert [b] + [c, d] == [b, c, d];
  }

  lemma TruthyValuesOfFour(a: Option<string>, b: Option<string>, c: Option<string>, d: Option<string>)
    ensures TruthyValues([a, b, c, d]) == Kept(a) + (Kept(b) + (Kept(c) + Kept(d)))
  {
    TruthyValuesOfThree(b, c, d);
    TruthyValuesCons(a, [b, c, d]);
    assert [a] + [b, c, d] == [a, b, c, d];
  }

  function Step(value: Option<string>, index: nat): nat {
    if Truthy(value) then index + 1 else index
  }

  lemma FiltersCons(c: string, cs: seq<string>, v: Option<string>, vs: seq<Option<string>>, index: nat)
    requires |cs| == |vs| && 1 <= index && index + |vs| < 10
    ensures Filters([c] + cs, [v] + vs, index) == FilterText(c, v, index) + Filters(cs, vs, Step(v, index))
  {
    assert ([c] + cs)[1..] == cs;
    assert ([v] + vs)[1..] == vs;
  }

  lemma FiltersOfOne(c4: string, d: Option<string>, i4: nat)
    requires 1 <= i4 <= 4
    ensures Filters([c4], [d], i4) == FilterText(c4, d, i4)
  {
    FiltersCons(c4, [], d, [], i4);
    assert [c4] + [] == [c4] && [d] + [] == [d];
  }

  lemma FiltersOfTwo(c3: string, c4: string, c: Option<string>, d: Option<string>, i3: nat)
    requires 1 <= i3 <= 3
    ensures Filters([c3, c4], [c, d], i3) == FilterText(c3, c, i3) + FilterText(c4, d, Step(c, i3))
  {
    FiltersOfOne(c4, d, Step(c, i3));
    FiltersCons(c3, [c4], c, [d], i3);
    assert [c3] + [c4] == [c3, c4] && [c] + [d] == [c, d];
  }

  lemma FiltersOfThree(c2: string, c3: string, c4: string, b: Option<string>, c: Option<string>, d: Option<string>, i2: nat)
    requires 1 <= i2 <= 2
    ensures Filters([c2, c3, c4], [b, c, d], i2) ==
      FilterText(c2, b, i2) + (FilterText(c3, c, Step(b, i2)) + FilterText(c4, d, Step(c, Step(b, i2))))
  {
    FiltersOfTwo(c3, c4, c, d, Step(b, i2));
    FiltersCons(c2, [c3, c4], b, [c, d], i2);
    assert [c2] + [c3, c4] == [c2, c3, c4] && [b] + [c, d] == [b, c, d];
  }

  /** Four filters, one after the other. */
  lemma FiltersOfFour(c1: string, c2: string, c3: string, c4: string,
                      a: Option<string>, b: Option<string>, c: Option<string>, d: Option<string>)
    ensures Filters([c1, c2, c3, c4], [a, b, c, d], 1) ==
      FilterText(c1, a, 1) +
      (FilterText(c2, b, Step(a, 1)) +
      (FilterText(c3, c, Step(b, Step(a, 1))) +
       FilterText(c4, d, Step(c, Step(b, Step(a, 1))))))
  {
    FiltersOfThree(c2, c3, c4, b, c, d, Step(a, 1));
    FiltersOfFourHead(c1, c2, c3, c4, a, b, c, d);
  }

  lemma FiltersOfFourHead(c1: string, c2: string, c3: string, c4: string,
                          a: Option<string>, b: Option<string>, c: Option<string>, d: Option<string>)
    ensures Filters([c1, c2, c3, c4], [a, b, c, d], 1) == FilterText(c1, a, 1) + Filters([c2, c3, c4], [b, c, d], Step(a, 1))
  {
    FiltersCons(c1, [c2, c3, c4], a, [b, c, d], 1);
    assert [c1] + [c2, c3, c4] == [c1, c2, c3, c4] && [a] + [b, c, d] == [a, b, c, d];
  }

  /** Text appended step by step, regrouped. */
  lemma Nest<T>(t0: seq<T>, t1: seq<T>, t2: seq<T>, t3: seq<T>, t4: seq<T>)
    ensures t0 + t1 + t2 + t3 + t4 == t0 + (t1 + (t2 + (t3 + t4)))
  {
  }

  /** Placeholders of the whole query are those of its filters. */
  lemma QueryPlaceholders(select: string, filters: string, order: string)
    requires '$' !in select && '$' !in order && EndsClear(filters)
    ensures Placeholders(select + filters + order) == Placeholders(filters)
    ensures multiset(select + filters + order)['$'] == multiset(filters)['$']
  {
    assert select + filters + order == select + (filters + order);
    PlaceholdersAfterClear(select, filters + order);
    PlaceholdersBeforeClear(filters, order);
  }

  /** The whole list query carries `$1` ... `$n` for its n parameters, and
      no other `$`. */
  lemma ListQueryPlaceholders(values: seq<Option<string>>)
    requires |values| == 4
    ensures Placeholders(ListSelect + Filters(ListConditions, values, 1) + ListOrder) == Numbered(1, |TruthyValues(values)|)
    ensures multiset(ListSelect + Filters(ListConditions, values, 1) + ListOrder)['$'] == |TruthyValues(values)|
  {
    ListSelectClear();
    ListOrderClear();
    ListConditionsClear();
    FiltersPlaceholders(ListConditions, values, 1);
    QueryPlaceholders(ListSelect, Filters(ListConditions, values, 1), ListOrder);
  }

  /** Builds the list query for the given `type`, `status`, `startDate` and
      `endDate` query-string values: the select text, the filters of the
      truthy values, then the ordering; the parameters are the truthy
      values in order, and the placeholders are `$1`, `$2`, ... one per
      parameter. */
  method ListQuery(kind: Option<string>, status: Option<string>, startDate: Option<string>, endDate: Option<string>)
    returns (queryText: string, params: seq<string>)
    ensures params == TruthyValues([kind, status, startDate, endDate])
    ensures queryText == ListSelect + Filters(ListConditions, [kind, status, startDate, endDate], 1) + ListOrder
    ensures Placeholders(queryText) == Numbered(1, |params|)
    ensures multiset(queryText)['$'] == |params|
  {
    queryText := ListSelect;
    params := [];
    var paramIndex := 1;

    queryText, params, paramIndex := AddFilter(queryText, params, paramIndex, kind, TypeCondition);
    queryText, params, paramIndex := AddFilter(queryText, params, paramIndex, status, StatusCondition);
    queryText, params, paramIndex := AddFilter(queryText, params, paramIndex, startDate, StartCondition);
    queryText, params, paramIndex := AddFilter(queryText, params, paramIndex, endDate, EndCondition);

    queryText := queryText + ListOrder;

    TruthyValuesOfFour(kind, status, startDate, endDate);
    Nest([], Kept(kind), Kept(status), Kept(startDate), Kept(endDate));
    assert [] + (Kept(kind) + (Kept(status) + (Kept(startDate) + Kept(endDate)))) ==
      Kept(kind) + (Kept(status) + (Kept(startDate) + Kept(endDate)));
    FiltersOfFour(TypeCondition, StatusCondition, StartCondition, EndCondition, kind, status, startDate, endDate);
    ghost var step2 := Step(kind, 1);
    ghost var step3 := Step(status, step2);
    ghost var step4 := Step(startDate, step3);
    Nest(ListSelect, FilterText(TypeCondition, kind, 1), FilterText(StatusCondition, status, step2),
         FilterText(StartCondition, startDate, step3), FilterText(EndCondition, endDate, step4));
    ListQueryPlaceholders([kind, status, startDate, endDate]);
  }
}
