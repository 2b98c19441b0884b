/** The two views over `sales_data`, as queries evaluated on the table's rows:
    `monthly_sales` (GROUP BY year and month, ordered by them) and
    `category_performance` (GROUP BY category, ordered by revenue, highest first).
    SQL semantics: SUM and AVG skip NULLs and are NULL over no value, COUNT(DISTINCT)
    skips NULLs, a NULL key forms its own group, and NULL keys sort last. */
module Views {
  import opened Common
  import opened Transform
  import opened Warehouse

  // ---------------------------------------------------------------------------
  // Aggregates
  // ---------------------------------------------------------------------------

  /** SUM over an INTEGER column. */
  function SqlSumInt(xs: seq<Option<int>>): (r: Option<int>)
    ensures r.None? <==> forall i :: 0 <= i < |xs| ==> xs[i].None?
  {
    if xs == [] then None
    else
      var acc, x := SqlSumInt(xs[..|xs| - 1]), xs[|xs| - 1];
      if x.None? then acc else if acc.None? then x else Some(acc.value + x.value)
  }

  /** SUM over a DECIMAL column. The same fold as `SqlSumInt` at another element type:
      Dafny has no numeric type class to share it over `int` and `real`. */
  function SqlSumReal(xs: seq<Option<real>>): (r: Option<real>)
    ensures r.None? <==> forall i :: 0 <= i < |xs| ==> xs[i].None?
  {
    if xs == [] then None
    else
      var acc, x := SqlSumReal(xs[..|xs| - 1]), xs[|xs| - 1];
      if x.None? then acc else if acc.None? then x else Some(acc.value + x.value)
  }

  /** The number of non-NULL values. */
  function PresentCount(xs: seq<Option<real>>): (n: nat)
    ensures n <= |xs|
    ensures n == 0 <==> forall i :: 0 <= i < |xs| ==> xs[i].None?
  {
    if xs == [] then 0 else PresentCount(xs[..|xs| - 1]) + (if xs[|xs| - 1].Some? then 1 else 0)
  }

  /** AVG, as exact division of the sum by the number of non-NULL values. */
  function SqlAvg(xs: seq<Option<real>>): (r: Option<real>)
    ensures r.None? <==> forall i :: 0 <= i < |xs| ==> xs[i].None?
    ensures r.Some? ==> r.value * PresentCount(xs) as real == SqlSumReal(xs).value
  {
    var s := SqlSumReal(xs);
    if s.None? then None else Some(s.value / PresentCount(xs) as real)
  }

  /** SUM(quantity) splits over a concatenation: NULL on both parts gives NULL,
      otherwise the present parts add up; one value sums to itself. */
  lemma {:induction false} SqlSumIntAppend(a: seq<Option<int>>, b: seq<Option<int>>, x: Option<int>)
    ensures SqlSumInt(a + b) ==
      if SqlSumInt(a).None? then SqlSumInt(b)
      else if SqlSumInt(b).None? then SqlSumInt(a)
      else Some(SqlSumInt(a).value + SqlSumInt(b).value)
    ensures SqlSumInt([x]) == x
  {
    assert [x][..0] == [];
    if b == [] {
      assert a + b == a;
    } else {
      assert (a + b)[..|a + b| - 1] == a + b[..|b| - 1];
      SqlSumIntAppend(a, b[..|b| - 1], x);
    }
  }

  /** SUM over a DECIMAL column splits over a concatenation the same way; one value
      sums to itself. */
  lemma {:induction false} SqlSumRealAppend(a: seq<Option<real>>, b: seq<Option<real>>, x: Option<real>)
    ensures SqlSumReal(a + b) ==
      if SqlSumReal(a).None? then SqlSumReal(b)
      else if SqlSumReal(b).None? then SqlSumReal(a)
      else Some(SqlSumReal(a).value + SqlSumReal(b).value)
    ensures SqlSumReal([x]) == x
  {
    assert [x][..0] == [];
    if b == [] {
      assert a + b == a;
    } else {
      assert (a + b)[..|a + b| - 1] == a + b[..|b| - 1];
      SqlSumRealAppend(a, b[..|b| - 1], x);
    }
  }

  function QuantitiesOf(g: seq<WarehouseRow>): (xs: seq<Option<int>>)
    ensures |xs| == |g| && forall i :: 0 <= i < |g| ==> xs[i] == g[i].sale.quantity
  {
    seq(|g|, i requires 0 <= i < |g| => g[i].sale.quantity)
  }

  function TotalsOf(g: seq<WarehouseRow>): (xs: seq<Option<real>>)
    ensures |xs| == |g| && forall i :: 0 <= i < |g| ==> xs[i] == g[i].sale.totalSales
  {
    seq(|g|, i requires 0 <= i < |g| => g[i].sale.totalSales)
  }

  function PricesOf(g: seq<WarehouseRow>): (xs: seq<Option<real>>)
    ensures |xs| == |g| && forall i :: 0 <= i < |g| ==> xs[i] == g[i].sale.priceSale
  {
    seq(|g|, i requires 0 <= i < |g| => g[i].sale.priceSale)
  }

  // ---------------------------------------------------------------------------
  // Grouping
  // ---------------------------------------------------------------------------

  /** The rows of group `k`, in table order. */
  function GroupOf<K(==)>(rows: seq<WarehouseRow>, key: WarehouseRow -> K, k: K): (g: seq<WarehouseRow>)
    ensures |g| <= |rows|
    ensures forall w :: w in g <==> w in rows && key(w) == k
  {
    if rows == [] then []
    else
      var last := rows[|rows| - 1];
      GroupOf(rows[..|rows| - 1], key, k) + (if key(last) == k then [last] else [])
  }

  predicate Distinct<K(==)>(ks: seq<K>)
  {
    forall i, j :: 0 <= i < j < |ks| ==> ks[i] != ks[j]
  }

  /** The sizes of the groups of `ks`, added up. */
  function GroupSizes<K(==)>(rows: seq<WarehouseRow>, key: WarehouseRow -> K, ks: seq<K>): nat
  {
    if ks == [] then 0 else |GroupOf(rows, key, ks[0])| + GroupSizes(rows, key, ks[1..])
  }

  function Occurrences<K(==)>(ks: seq<K>, k: K): nat
  {
    if ks == [] then 0 else (if ks[0] == k then 1 else 0) + Occurrences(ks[1..], k)
  }

  lemma {:induction false} OccursOnce<K>(ks: seq<K>, k: K)
    requires Distinct(ks)
    ensures Occurrences(ks, k) == if k in ks then 1 else 0
  {
    if ks != [] {
      assert Distinct(ks[1..]) by {
        forall i, j | 0 <= i < j < |ks[1..]| ensures ks[1..][i] != ks[1..][j] {
          assert ks[1..][i] == ks[i + 1] && ks[1..][j] == ks[j + 1];
        }
      }
      OccursOnce(ks[1..], k);
    }
  }

  lemma {:induction false} GroupSizesOfNoRows<K>(key: WarehouseRow -> K, ks: seq<K>)
    ensures GroupSizes([], key, ks) == 0
  {
    if ks != [] {
      GroupSizesOfNoRows(key, ks[1..]);
    }
  }

  lemma {:induction false} GroupSizesStep<K>(rows: seq<WarehouseRow>, w: WarehouseRow, key: WarehouseRow -> K, ks: seq<K>)
    ensures GroupSizes(rows + [w], key, ks) == GroupSizes(rows, key, ks) + Occurrences(ks, key(w))
  {
    if ks != [] {
      assert (rows + [w])[..|rows + [w]| - 1] == rows;
      GroupSizesStep(rows, w, key, ks[1..]);
    }
  }

  /** Groups over distinct keys that cover every row partition the table: their
      sizes add up to the number of rows. */
  lemma {:induction false} GroupsPartitionRows<K>(rows: seq<WarehouseRow>, key: WarehouseRow -> K, ks: seq<K>)
    requires Distinct(ks)
    requires forall w :: w in rows ==> key(w) in ks
    ensures GroupSizes(rows, key, ks) == |rows|
  {
    if rows == [] {
      GroupSizesOfNoRows(key, ks);
    } else {
      var init, w := rows[..|rows| - 1], rows[|rows| - 1];
      assert rows == init + [w];
      assert forall v :: v in init ==> v in rows;
      GroupsPartitionRows(init, key, ks);
      GroupSizesStep(init, w, key, ks);
      OccursOnce(ks, key(w));
    }
  }

  // ---------------------------------------------------------------------------
  // monthly_sales
  // ---------------------------------------------------------------------------

  type MonthKey = (Option<int>, Option<int>)

  function MonthKeyOf(w: WarehouseRow): MonthKey
  {
    (w.saleYear, w.saleMonth)
  }

  /** Ascending order with NULL last. */
  predicate NullsLastLess(a: Option<int>, b: Option<int>)
  {
    a.Some? && (b.None? || a.value < b.value)
  }

  /** ORDER BY sale_year, sale_month. */
  predicate MonthKeyLess(a: MonthKey, b: MonthKey)
  {
    NullsLastLess(a.0, b.0) || (a.0 == b.0 && NullsLastLess(a.1, b.1))
  }

  lemma MonthKeyLessTransitive(a: MonthKey, b: MonthKey, c: MonthKey)
    requires MonthKeyLess(a, b) && MonthKeyLess(b, c)
    ensures MonthKeyLess(a, c)
  {
  }

  /** Any two different keys are ordered one way or the other. */
  lemma MonthKeyLessTotal(a: MonthKey, b: MonthKey)
    ensures a == b || MonthKeyLess(a, b) || MonthKeyLess(b, a)
  {
  }

  predicate StrictlyAscending(ks: seq<MonthKey>)
  {
    forall i, j :: 0 <= i < j < |ks| ==> MonthKeyLess(ks[i], ks[j])
  }

  /** Adds a key to a strictly ascending list, unless it is there already. */
  function InsertKey(k: MonthKey, ks: seq<MonthKey>): (r: seq<MonthKey>)
    requires StrictlyAscending(ks)
    ensures StrictlyAscending(r)
    ensures forall x :: x in r <==> x == k || x in ks
  {
    if ks == [] then [k]
    else if k == ks[0] then ks
    else if MonthKeyLess(k, ks[0]) then
      InsertBeforeHead(k, ks);
      [k] + ks
    else
      MonthKeyLessTotal(k, ks[0]);
      var rest := InsertKey(k, ks[1..]);
      HeadBeforeRest(k, ks, rest);
      [ks[0]] + rest
  }

  lemma InsertBeforeHead(k: MonthKey, ks: seq<MonthKey>)
    requires StrictlyAscending(ks) && ks != [] && MonthKeyLess(k, ks[0])
    ensures StrictlyAscending([k] + ks)
  {
    forall j | 0 < j < |ks| ensures MonthKeyLess(k, ks[j]) {
      MonthKeyLessTransitive(k, ks[0], ks[j]);
    }
  }

  lemma HeadBeforeRest(k: MonthKey, ks: seq<MonthKey>, rest: seq<MonthKey>)
    requires StrictlyAscending(ks) && ks != [] && MonthKeyLess(ks[0], k)
    requires StrictlyAscending(rest)
    requires forall x :: x in rest ==> x == k || x in ks[1..]
    ensures StrictlyAscending([ks[0]] + rest)
  {
    forall x | x in rest ensures MonthKeyLess(ks[0], x) {
      if x != k {
        var j :| 0 <= j < |ks[1..]| && ks[1..][j] == x;
        assert ks[j + 1] == x;
      }
    }
    var r := [ks[0]] + rest;
    forall i, j | 0 <= i < j < |r| ensures MonthKeyLess(r[i], r[j]) {
      if i == 0 {
        assert r[j] == rest[j - 1] && rest[j - 1] in rest;
      } else {
        assert r[i] == rest[i - 1] && r[j] == rest[j - 1];
      }
    }
  }

  /** The distinct (sale_year, sale_month) keys of the table, in ORDER BY order. */
  function MonthKeys(rows: seq<WarehouseRow>): (ks: seq<MonthKey>)
    ensures StrictlyAscending(ks)
    ensures forall k :: k in ks <==> exists w :: w in rows && MonthKeyOf(w) == k
  {
    if rows == [] then []
    else
      var init, last := rows[..|rows| - 1], rows[|rows| - 1];
      LastSplit(rows);
      InsertKey(MonthKeyOf(last), MonthKeys(init))
  }

  lemma LastSplit(rows: seq<WarehouseRow>)
    requires rows != []
    ensures forall w :: w in rows <==> w in rows[..|rows| - 1] || w == rows[|rows| - 1]
  {
    assert rows == rows[..|rows| - 1] + [rows[|rows| - 1]];
  }

  lemma AscendingIsDistinct(ks: seq<MonthKey>)
    requires StrictlyAscending(ks)
    ensures Distinct(ks)
  {
  }

  /** A row of `monthly_sales`. */
  datatype MonthlyRow = MonthlyRow(
    saleYear: Option<int>,
    saleMonth: Option<int>,
    totalTransactions: nat,
    totalQuantity: Option<int>,
    totalRevenue: Option<real>,
    avgTransactionValue: Option<real>)

  function KeyOfMonthly(m: MonthlyRow): MonthKey
  {
    (m.saleYear, m.saleMonth)
  }

  /** The aggregates of one (year, month) group: COUNT(*), SUM(quantity),
      SUM(total_sales) and AVG(total_sales). */
  function MonthlyRowOf(rows: seq<WarehouseRow>, k: MonthKey): (m: MonthlyRow)
    ensures KeyOfMonthly(m) == k
    ensures m.totalTransactions == |GroupOf(rows, MonthKeyOf, k)|
    ensures (exists w :: w in rows && MonthKeyOf(w) == k) ==> m.totalTransactions > 0
  {
    var g := GroupOf(rows, MonthKeyOf, k);
    assert forall w :: w in rows && MonthKeyOf(w) == k ==> w in g;
    MonthlyRow(k.0, k.1, |g|, SqlSumInt(QuantitiesOf(g)), SqlSumReal(TotalsOf(g)), SqlAvg(TotalsOf(g)))
  }

  function MonthlyRowsFor(rows: seq<WarehouseRow>, ks: seq<MonthKey>): (v: seq<MonthlyRow>)
    ensures |v| == |ks|
    ensures forall i :: 0 <= i < |ks| ==> v[i] == MonthlyRowOf(rows, ks[i])
  {
    if ks == [] then [] else [MonthlyRowOf(rows, ks[0])] + MonthlyRowsFor(rows, ks[1..])
  }

  /** `monthly_sales`: the aggregates of each distinct (year, month) of the table. */
  function MonthlySales(rows: seq<WarehouseRow>): (v: seq<MonthlyRow>)
    ensures forall i :: 0 <= i < |v| ==> v[i] == MonthlyRowOf(rows, KeyOfMonthly(v[i])) && v[i].totalTransactions > 0
  {
    var ks := MonthKeys(rows);
    var v := MonthlyRowsFor(rows, ks);
    assert forall i :: 0 <= i < |v| ==> KeyOfMonthly(v[i]) == ks[i] && ks[i] in ks;
    v
  }

  /** `monthly_sales` is in ORDER BY order, ascending year then month with NULL
      last, and so holds each (year, month) at most once. */
  lemma MonthlySalesOrdered(rows: seq<WarehouseRow>)
    ensures forall i, j :: 0 <= i < j < |MonthlySales(rows)| ==>
      MonthKeyLess(KeyOfMonthly(MonthlySales(rows)[i]), KeyOfMonthly(MonthlySales(rows)[j]))
  {
    var ks := MonthKeys(rows);
    var v := MonthlySales(rows);
    assert forall i :: 0 <= i < |v| ==> KeyOfMonthly(v[i]) == ks[i];
  }

  /** Every (year, month) of the table has its row in `monthly_sales`, and every row
      there has a non-empty group of the table. */
  lemma MonthlySalesCoversTable(rows: seq<WarehouseRow>)
    ensures forall w :: w in rows ==> exists i :: 0 <= i < |MonthlySales(rows)| && KeyOfMonthly(MonthlySales(rows)[i]) == MonthKeyOf(w)
    ensures forall i :: 0 <= i < |MonthlySales(rows)| ==> MonthlySales(rows)[i].totalTransactions > 0
  {
    var ks := MonthKeys(rows);
    var v := MonthlySales(rows);
    forall w | w in rows ensures exists i :: 0 <= i < |v| && KeyOfMonthly(v[i]) == MonthKeyOf(w) {
      assert MonthKeyOf(w) in ks;
      var i :| 0 <= i < |ks| && ks[i] == MonthKeyOf(w);
      assert KeyOfMonthly(v[i]) == ks[i];
    }
    forall i | 0 <= i < |v| ensures v[i].totalTransactions > 0 {
      assert ks[i] in ks;
      assert v[i] == MonthlyRowOf(rows, ks[i]);
    }
  }

  /** Each row of `monthly_sales` carries the aggregates of its own group. */
  lemma MonthlySalesAggregates(rows: seq<WarehouseRow>, i: nat)
    requires i < |MonthlySales(rows)|
    ensures var m, g := MonthlySales(rows)[i], GroupOf(rows, MonthKeyOf, KeyOfMonthly(MonthlySales(rows)[i]));
      m.totalTransactions == |g| && m.totalQuantity == SqlSumInt(QuantitiesOf(g))
      && m.totalRevenue == SqlSumReal(TotalsOf(g)) && m.avgTransactionValue == SqlAvg(TotalsOf(g))
  {
  }

  function TotalTransactions(v: seq<MonthlyRow>): nat
  {
    if v == [] then 0 else v[0].totalTransactions + TotalTransactions(v[1..])
  }

  lemma {:induction false} TransactionsAreGroupSizes(rows: seq<WarehouseRow>, ks: seq<MonthKey>)
    ensures TotalTransactions(MonthlyRowsFor(rows, ks)) == GroupSizes(rows, MonthKeyOf, ks)
  {
    if ks != [] {
      assert MonthlyRowsFor(rows, ks)[1..] == MonthlyRowsFor(rows, ks[1..]);
      TransactionsAreGroupSizes(rows, ks[1..]);
    }
  }

  /** Every row of the table is counted in exactly one month: the
      `total_transactions` column adds up to the table's row count. */
  lemma MonthlyTransactionsAddUp(rows: seq<WarehouseRow>)
    ensures TotalTransactions(MonthlySales(rows)) == |rows|
  {
    var ks := MonthKeys(rows);
    assert forall w :: w in rows ==> MonthKeyOf(w) in ks;
    AscendingIsDistinct(ks);
    TransactionsAreGroupSizes(rows, ks);
    GroupsPartitionRows(rows, MonthKeyOf, ks);
  }

  // ---------------------------------------------------------------------------
  // category_performance
  // ---------------------------------------------------------------------------

  function CategoryOf(w: WarehouseRow): Option<string>
  {
    w.sale.category
  }

  /** The distinct keys of the table, in order of first appearance. */
  function FirstAppearance<K(==,!new)>(rows: seq<WarehouseRow>, key: WarehouseRow -> K): (ks: seq<K>)
    ensures Distinct(ks)
    ensures forall k :: k in ks <==> exists w :: w in rows && key(w) == k
  {
    if rows == [] then []
    else
      var init, last := rows[..|rows| - 1], rows[|rows| - 1];
      LastSplit(rows);
      var ks := FirstAppearance(init, key);
      if key(last) in ks then ks else ks + [key(last)]
  }

  /** COUNT(DISTINCT product_id): the non-NULL product ids of a group. */
  function ProductIdsOf(g: seq<WarehouseRow>): (ids: set<string>)
    ensures forall p :: p in ids <==> exists w :: w in g && w.sale.productId == Some(p)
  {
    set w | w in g && w.sale.productId.Some? :: w.sale.productId.value
  }

  /** A row of `category_performance`. */
  datatype CategoryRow = CategoryRow(
    category: Option<string>,
    totalProducts: nat,
    totalQuantitySold: Option<int>,
    totalRevenue: Option<real>,
    avgPrice: Option<real>)

  /** The aggregates of one category's group: COUNT(DISTINCT product_id),
      SUM(quantity), SUM(total_sales) and AVG(price_sale). */
  function CategoryRowOf(rows: seq<WarehouseRow>, c: Option<string>): (r: CategoryRow)
    ensures r.category == c
  {
    var g := GroupOf(rows, CategoryOf, c);
    CategoryRow(c, |ProductIdsOf(g)|, SqlSumInt(QuantitiesOf(g)), SqlSumReal(TotalsOf(g)), SqlAvg(PricesOf(g)))
  }

  function CategoryRowsFor(rows: seq<WarehouseRow>, cs: seq<Option<string>>): (v: seq<CategoryRow>)
    ensures |v| == |cs|
    ensures forall i :: 0 <= i < |cs| ==> v[i] == CategoryRowOf(rows, cs[i])
  {
    if cs == [] then [] else [CategoryRowOf(rows, cs[0])] + CategoryRowsFor(rows, cs[1..])
  }

  /** ORDER BY total_revenue DESC, NULL last: `a` may come before `b`. */
  predicate RevenueFirst(a: Option<real>, b: Option<real>)
  {
    b.None? || (a.Some? && a.value >= b.value)
  }

  predicate RevenueSorted(v: seq<CategoryRow>)
  {
    forall i, j :: 0 <= i < j < |v| ==> RevenueFirst(v[i].totalRevenue, v[j].totalRevenue)
  }

  predicate CategoriesDistinct(v: seq<CategoryRow>)
  {
    forall i, j :: 0 <= i < j < |v| ==> v[i].category != v[j].category
  }

  /** Places `x` before the first row it may precede, so after the rows of equal
      revenue already placed. */
  function InsertByRevenue(x: CategoryRow, s: seq<CategoryRow>): (r: seq<CategoryRow>)
    ensures multiset(r) == multiset(s) + multiset{x}
  {
    if s == [] then [x]
    else if RevenueFirst(x.totalRevenue, s[0].totalRevenue) then [x] + s
    else
      assert s == [s[0]] + s[1..];
      [s[0]] + InsertByRevenue(x, s[1..])
  }

  lemma InsertMembers(x: CategoryRow, s: seq<CategoryRow>)
    ensures forall y :: y in InsertByRevenue(x, s) <==> y == x || y in s
  {
    var r := InsertByRevenue(x, s);
    forall y ensures y in r <==> y == x || y in s {
      assert y in r <==> y in multiset(r);
      assert y in s <==> y in multiset(s);
    }
  }

  lemma {:induction false} InsertKeepsOrder(x: CategoryRow, s: seq<CategoryRow>)
    requires RevenueSorted(s)
    ensures RevenueSorted(InsertByRevenue(x, s))
  {
    if s == [] {
    } else if RevenueFirst(x.totalRevenue, s[0].totalRevenue) {
      var r := [x] + s;
      forall j | 0 < j < |r| ensures RevenueFirst(x.totalRevenue, r[j].totalRevenue) {
        assert r[j] == s[j - 1];
      }
    } else {
      var rest := InsertByRevenue(x, s[1..]);
      InsertKeepsOrder(x, s[1..]);
      InsertMembers(x, s[1..]);
      forall y | y in rest ensures RevenueFirst(s[0].totalRevenue, y.totalRevenue) {
        if y != x {
          var j :| 0 <= j < |s[1..]| && s[1..][j] == y;
          assert s[j + 1] == y;
        }
      }
      var r := [s[0]] + rest;
      forall i, j | 0 <= i < j < |r| ensures RevenueFirst(r[i].totalRevenue, r[j].totalRevenue) {
        if i == 0 {
          assert r[j] == rest[j - 1] && rest[j - 1] in rest;
        } else {
          assert r[i] == rest[i - 1] && r[j] == rest[j - 1];
        }
      }
    }
  }

  lemma {:induction false} InsertKeepsCategoriesDistinct(x: CategoryRow, s: seq<CategoryRow>)
    requires CategoriesDistinct(s)
    requires forall y :: y in s ==> y.category != x.category
    ensures CategoriesDistinct(InsertByRevenue(x, s))
  {
    if s == [] {
    } else if RevenueFirst(x.totalRevenue, s[0].totalRevenue) {
      ConsDistinct(x, s);
    } else {
      var rest := InsertByRevenue(x, s[1..]);
      TailDistinct(s);
      InsertKeepsCategoriesDistinct(x, s[1..]);
      InsertMembers(x, s[1..]);
      forall y | y in rest ensures y.category != s[0].category {
        if y != x {
          var j :| 0 <= j < |s[1..]| && s[1..][j] == y;
          assert s[j + 1] == y;
        }
      }
      ConsDistinct(s[0], rest);
    }
  }

  lemma ConsDistinct(h: CategoryRow, t: seq<CategoryRow>)
    requires CategoriesDistinct(t)
    requires forall y :: y in t ==> y.category != h.category
    ensures CategoriesDistinct([h] + t)
  {
    var r := [h] + t;
    forall i, j | 0 <= i < j < |r| ensures r[i].category != r[j].category {
      assert r[j] == t[j - 1] && t[j - 1] in t;
      if i > 0 {
        assert r[i] == t[i - 1];
      }
    }
  }

  lemma TailDistinct(s: seq<CategoryRow>)
    requires s != [] && CategoriesDistinct(s)
    ensures CategoriesDistinct(s[1..]) && forall y :: y in s[1..] ==> y in s
  {
    forall i, j | 0 <= i < j < |s[1..]| ensures s[1..][i].category != s[1..][j].category {
      assert s[1..][i] == s[i + 1] && s[1..][j] == s[j + 1];
    }
  }


  /** Insertion sort by revenue, highest first, NULL last; stable. */
  function SortByRevenue(s: seq<CategoryRow>): (r: seq<CategoryRow>)
    ensures RevenueSorted(r)
    ensures multiset(r) == multiset(s)
  {
    if s == [] then []
    else
      assert s == [s[0]] + s[1..];
      var rest := SortByRevenue(s[1..]);
      InsertKeepsOrder(s[0], rest);
      InsertByRevenue(s[0], rest)
  }

  lemma {:induction false} SortKeepsCategoriesDistinct(s: seq<CategoryRow>)
    requires CategoriesDistinct(s)
    ensures CategoriesDistinct(SortByRevenue(s))
  {
    if s != [] {
      assert CategoriesDistinct(s[1..]) by {
        forall i, j | 0 <= i < j < |s[1..]| ensures s[1..][i].category != s[1..][j].category {
          assert s[1..][i] == s[i + 1] && s[1..][j] == s[j + 1];
        }
      }
      SortKeepsCategoriesDistinct(s[1..]);
      var rest := SortByRevenue(s[1..]);
      forall y | y in rest ensures y.category != s[0].category {
        assert y in multiset(rest);
        assert y in multiset(s[1..]);
        var j :| 0 <= j < |s[1..]| && s[1..][j] == y;
        assert s[j + 1] == y;
      }
      InsertKeepsCategoriesDistinct(s[0], rest);
    }
  }

  /** `category_performance`: the groups of the table's distinct categories, in
      first-appearance order, then sorted by revenue. */
  function CategoryPerformance(rows: seq<WarehouseRow>): (v: seq<CategoryRow>)
    ensures RevenueSorted(v)
    ensures multiset(v) == multiset(CategoryRowsFor(rows, FirstAppearance(rows, CategoryOf)))
  {
    SortByRevenue(CategoryRowsFor(rows, FirstAppearance(rows, CategoryOf)))
  }

  /** The rows of `category_performance` are exactly the category groups. */
  lemma CategoryPerformanceMembers(rows: seq<WarehouseRow>)
    ensures forall y :: y in CategoryPerformance(rows) <==> y in CategoryRowsFor(rows, FirstAppearance(rows, CategoryOf))
  {
    var groups := CategoryRowsFor(rows, FirstAppearance(rows, CategoryOf));
    var v := CategoryPerformance(rows);
    forall y ensures y in v <==> y in groups {
      assert y in v <==> y in multiset(v);
      assert y in groups <==> y in multiset(groups);
    }
  }

  /** `category_performance` never holds a category twice. */
  lemma CategoryPerformanceDistinct(rows: seq<WarehouseRow>)
    ensures CategoriesDistinct(CategoryPerformance(rows))
  {
    var cs := FirstAppearance(rows, CategoryOf);
    var groups := CategoryRowsFor(rows, cs);
    assert CategoriesDistinct(groups) by {
      forall i, j | 0 <= i < j < |groups| ensures groups[i].category != groups[j].category {
        assert groups[i].category == cs[i] && groups[j].category == cs[j];
      }
    }
    SortKeepsCategoriesDistinct(groups);
  }

  /** Every category of the table (NULL included) has its row in `category_performance`. */
  lemma CategoryPerformanceCoversTable(rows: seq<WarehouseRow>)
    ensures forall w :: w in rows ==> exists i :: 0 <= i < |CategoryPerformance(rows)| && CategoryPerformance(rows)[i].category == CategoryOf(w)
  {
    var cs := FirstAppearance(rows, CategoryOf);
    var groups := CategoryRowsFor(rows, cs);
    var v := CategoryPerformance(rows);
    CategoryPerformanceMembers(rows);
    forall w | w in rows ensures exists i :: 0 <= i < |v| && v[i].category == CategoryOf(w) {
      assert CategoryOf(w) in cs;
      var k :| 0 <= k < |cs| && cs[k] == CategoryOf(w);
      assert groups[k] in v;
      var i :| 0 <= i < |v| && v[i] == groups[k];
    }
  }

  /** Every row of `category_performance` is the category of some sale. */
  lemma CategoryPerformanceOnlyTableCategories(rows: seq<WarehouseRow>)
    ensures forall i :: 0 <= i < |CategoryPerformance(rows)| ==> exists w :: w in rows && CategoryOf(w) == CategoryPerformance(rows)[i].category
  {
    var cs := FirstAppearance(rows, CategoryOf);
    var groups := CategoryRowsFor(rows, cs);
    var v := CategoryPerformance(rows);
    CategoryPerformanceMembers(rows);
    forall i | 0 <= i < |v| ensures exists w :: w in rows && CategoryOf(w) == v[i].category {
      assert v[i] in groups;
      var k :| 0 <= k < |groups| && groups[k] == v[i];
      assert cs[k] in cs;
    }
  }

  /** Each row of `category_performance` carries the aggregates of its own group;
      in particular `total_products` counts the category's distinct non-NULL product ids. */
  lemma CategoryPerformanceAggregates(rows: seq<WarehouseRow>, i: nat)
    requires i < |CategoryPerformance(rows)|
    ensures CategoryPerformance(rows)[i] == CategoryRowOf(rows, CategoryPerformance(rows)[i].category)
    ensures CategoryPerformance(rows)[i].totalProducts ==
      |set w | w in rows && CategoryOf(w) == CategoryPerformance(rows)[i].category && w.sale.productId.Some? :: w.sale.productId.value|
  {
    var v := CategoryPerformance(rows);
    assert v[i] == CategoryRowOf(rows, v[i].category) by {
      var groups := CategoryRowsFor(rows, FirstAppearance(rows, CategoryOf));
      CategoryPerformanceMembers(rows);
      assert v[i] in groups;
    }
    CategoryProductIds(rows, v[i].category);
  }

  /** The distinct non-NULL product ids of a category's group, as a set over the table. */
  lemma CategoryProductIds(rows: seq<WarehouseRow>, c: Option<string>)
    ensures ProductIdsOf(GroupOf(rows, CategoryOf, c))
         == set w | w in rows && CategoryOf(w) == c && w.sale.productId.Some? :: w.sale.productId.value
  {
  }
}
