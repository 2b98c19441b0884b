/** The quality gate: four counting checks over the enriched snapshot (and the
    catalogue), each appending one result to the checker's list, an overall
    verdict that is their conjunction, and a summary of passed and failed results. */
module Quality {
  import opened Common
  import opened Transform

  /** A record's `status`, the strings "PASSED" and "FAILED". */
  datatype Status = Passed | Failed

  /** One check's record: `{check_name, status, details}`. */
  datatype CheckResult = CheckResult(checkName: string, status: Status, details: string)

  /** The figures of the overall summary. */
  datatype Summary = Summary(total: nat, passed: nat, failed: nat)

  // ---------------------------------------------------------------------------
  // Rendering counts in the details text
  // ---------------------------------------------------------------------------

  function DigitChar(d: nat): char
    requires d < 10
  {
    ('0' as int + d) as char
  }

  predicate IsDigits(s: string)
  {
    forall i :: 0 <= i < |s| ==> '0' <= s[i] <= '9'
  }

  /** A count as Python's `str` prints it: decimal digits, no leading zero. */
  function DecimalString(n: nat): (s: string)
    ensures |s| >= 1 && IsDigits(s)
    ensures |s| > 1 ==> s[0] != '0'
  {
    if n < 10 then [DigitChar(n)] else DecimalString(n / 10) + [DigitChar(n % 10)]
  }

  /** Reads a string of decimal digits back as a number. */
  function ParseDecimal(s: string): nat
    requires IsDigits(s)
  {
    if s == [] then 0 else ParseDecimal(s[..|s| - 1]) * 10 + (s[|s| - 1] as int - '0' as int)
  }

  /** The count in a details text can be read back exactly. */
  lemma {:induction false} DecimalRoundTrip(n: nat)
    ensures ParseDecimal(DecimalString(n)) == n
  {
    if n >= 10 {
      DecimalRoundTrip(n / 10);
      var s := DecimalString(n);
      assert s[..|s| - 1] == DecimalString(n / 10);
    }
  }

  // ---------------------------------------------------------------------------
  // The counts
  // ---------------------------------------------------------------------------

  /** The number of rows satisfying `p` (a vectorised boolean mask summed). */
  function Count(rows: seq<EnrichedSale>, p: EnrichedSale -> bool): (n: nat)
    ensures n <= |rows|
  {
    if rows == [] then 0 else (if p(rows[0]) then 1 else 0) + Count(rows[1..], p)
  }

  lemma {:induction false} CountZeroIff(rows: seq<EnrichedSale>, p: EnrichedSale -> bool)
    ensures Count(rows, p) == 0 <==> forall i :: 0 <= i < |rows| ==> !p(rows[i])
  {
    if rows != [] {
      CountZeroIff(rows[1..], p);
      assert forall i :: 1 <= i < |rows| ==> rows[i] == rows[1..][i - 1];
    }
  }

  lemma {:induction false} CountAppend(a: seq<EnrichedSale>, b: seq<EnrichedSale>, p: EnrichedSale -> bool)
    ensures Count(a + b, p) == Count(a, p) + Count(b, p)
  {
    if a == [] {
      assert a + b == b;
    } else {
      assert (a + b)[1..] == a[1..] + b;
      CountAppend(a[1..], b, p);
    }
  }

  predicate MissingSaleId(r: EnrichedSale)
  {
    r.saleId.None?
  }

  /** A null quantity is not negative (NaN compares false). */
  predicate NegativeQuantity(r: EnrichedSale)
  {
    r.quantity.Some? && r.quantity.value < 0
  }

  predicate NegativePrice(r: EnrichedSale)
  {
    r.priceSale.Some? && r.priceSale.value < 0.0
  }

  function Abs(x: real): real
  {
    if x < 0.0 then -x else x
  }

  /** `total_sales` is more than 0.01 away from `quantity * price_sale`; a null on
      either side makes the difference NaN, which is not a violation. */
  predicate IncorrectTotal(r: EnrichedSale)
  {
    var expected := Mul(r.quantity, r.priceSale);
    r.totalSales.Some? && expected.Some? && Abs(r.totalSales.value - expected.value) > 0.01
  }

  /** `set(transformed_df['product_id'])`; a null id is an element like any other. */
  function TransformedIds(rows: seq<EnrichedSale>): set<Option<string>>
  {
    set r | r in rows :: r.productId
  }

  /** `set(products_df['product_id'])`. */
  function CatalogueIds(products: seq<Product>): set<Option<string>>
  {
    set p | p in products :: Some(p.productId)
  }

  /** The transformed ids absent from the catalogue. */
  function InvalidProductIds(products: seq<Product>, rows: seq<EnrichedSale>): (s: set<Option<string>>)
    ensures s == {} <==> TransformedIds(rows) <= CatalogueIds(products)
    ensures forall id :: id in s <==> id in TransformedIds(rows) && id !in CatalogueIds(products)
  {
    var ids, known := TransformedIds(rows), CatalogueIds(products);
    var d := ids - known;
    assert d == {} ==> ids <= known by {
      if d == {} {
        forall id | id in ids ensures id in known {
          assert id !in d;
        }
      }
    }
    d
  }

  // ---------------------------------------------------------------------------
  // The properties each check stands for
  // ---------------------------------------------------------------------------

  predicate NoMissingSaleIds(rows: seq<EnrichedSale>)
  {
    forall i :: 0 <= i < |rows| ==> rows[i].saleId.Some?
  }

  predicate NoNegativeValues(rows: seq<EnrichedSale>)
  {
    forall i :: 0 <= i < |rows| ==> !NegativeQuantity(rows[i]) && !NegativePrice(rows[i])
  }

  predicate ProductIdsConsistent(products: seq<Product>, rows: seq<EnrichedSale>)
  {
    TransformedIds(rows) <= CatalogueIds(products)
  }

  predicate TotalsCorrect(rows: seq<EnrichedSale>)
  {
    forall i :: 0 <= i < |rows| ==> !IncorrectTotal(rows[i])
  }

  /** The gate's overall verdict. */
  predicate AllChecksPass(products: seq<Product>, rows: seq<EnrichedSale>)
  {
    NoMissingSaleIds(rows) && NoNegativeValues(rows) && ProductIdsConsistent(products, rows) && TotalsCorrect(rows)
  }

  // ---------------------------------------------------------------------------
  // The record each check appends
  // ---------------------------------------------------------------------------

  function StatusOf(ok: bool): (s: Status)
    ensures s == Passed <==> ok
  {
    if ok then Passed else Failed
  }

  /** Check 1: PASSED iff no sale id is null; the details give the null count. */
  function MissingSaleIdsResult(rows: seq<EnrichedSale>): (r: CheckResult)
    ensures r.checkName == "Missing Sale IDs"
    ensures r.status == Passed <==> NoMissingSaleIds(rows)
    ensures r.details == "Found " + DecimalString(Count(rows, MissingSaleId)) + " missing sale IDs"
  {
    CountZeroIff(rows, MissingSaleId);
    var n := Count(rows, MissingSaleId);
    CheckResult("Missing Sale IDs", StatusOf(n == 0), "Found " + DecimalString(n) + " missing sale IDs")
  }

  /** Check 2: PASSED iff no quantity and no sale price is negative; the details give both counts. */
  function NegativeValuesResult(rows: seq<EnrichedSale>): (r: CheckResult)
    ensures r.checkName == "Negative Values"
    ensures r.status == Passed <==> NoNegativeValues(rows)
    ensures r.details == "Found " + DecimalString(Count(rows, NegativeQuantity)) + " negative quantities and "
                         + DecimalString(Count(rows, NegativePrice)) + " negative prices"
  {
    CountZeroIff(rows, NegativeQuantity);
    CountZeroIff(rows, NegativePrice);
    var q := Count(rows, NegativeQuantity);
    var p := Count(rows, NegativePrice);
    CheckResult("Negative Values", StatusOf(q == 0 && p == 0),
      "Found " + DecimalString(q) + " negative quantities and " + DecimalString(p) + " negative prices")
  }

  /** Check 3: PASSED iff every transformed product id is in the catalogue; the
      details give the size of the set difference. */
  function ProductIdConsistencyResult(products: seq<Product>, rows: seq<EnrichedSale>): (r: CheckResult)
    ensures r.checkName == "Product ID Consistency"
    ensures r.status == Passed <==> ProductIdsConsistent(products, rows)
    ensures r.details == "Found " + DecimalString(|InvalidProductIds(products, rows)|) + " invalid product IDs"
  {
    var invalid := InvalidProductIds(products, rows);
    CheckResult("Product ID Consistency", StatusOf(|invalid| == 0),
      "Found " + DecimalString(|invalid|) + " invalid product IDs")
  }

  /** Check 4: PASSED iff every total is within 0.01 of `quantity * price_sale`. */
  function TotalSalesResult(rows: seq<EnrichedSale>): (r: CheckResult)
    ensures r.checkName == "Total Sales Calculation"
    ensures r.status == Passed <==> TotalsCorrect(rows)
    ensures r.details == "Found " + DecimalString(Count(rows, IncorrectTotal)) + " incorrect total_sales calculations"
  {
    CountZeroIff(rows, IncorrectTotal);
    var n := Count(rows, IncorrectTotal);
    CheckResult("Total Sales Calculation", StatusOf(n == 0),
      "Found " + DecimalString(n) + " incorrect total_sales calculations")
  }

  /** The four records one run appends, in the order the checks run. */
  function AllResults(products: seq<Product>, rows: seq<EnrichedSale>): seq<CheckResult>
  {
    [MissingSaleIdsResult(rows), NegativeValuesResult(rows),
     ProductIdConsistencyResult(products, rows), TotalSalesResult(rows)]
  }

  // ---------------------------------------------------------------------------
  // Summary counts
  // ---------------------------------------------------------------------------

  /** The number of results whose status is PASSED. */
  function PassedCount(results: seq<CheckResult>): (n: nat)
    ensures n <= |results|
  {
    if results == [] then 0
    else PassedCount(results[..|results| - 1]) + (if results[|results| - 1].status == Passed then 1 else 0)
  }

  lemma {:induction false} PassedCountAppend(a: seq<CheckResult>, b: seq<CheckResult>)
    ensures PassedCount(a + b) == PassedCount(a) + PassedCount(b)
  {
    if b == [] {
      assert a + b == a;
    } else {
      assert (a + b)[..|a + b| - 1] == a + b[..|b| - 1];
      PassedCountAppend(a, b[..|b| - 1]);
    }
  }

  /** All four records of a run are PASSED exactly when the gate's verdict is true. */
  lemma RunPassesAllIff(products: seq<Product>, rows: seq<EnrichedSale>)
    ensures PassedCount(AllResults(products, rows)) == 4 <==> AllChecksPass(products, rows)
  {
    var rs := AllResults(products, rows);
    assert rs == [rs[0]] + [rs[1]] + [rs[2]] + [rs[3]];
    PassedCountAppend([rs[0]] + [rs[1]] + [rs[2]], [rs[3]]);
    PassedCountAppend([rs[0]] + [rs[1]], [rs[2]]);
    PassedCountAppend([rs[0]], [rs[1]]);
    PassedCountOne(rs[0]);
    PassedCountOne(rs[1]);
    PassedCountOne(rs[2]);
    PassedCountOne(rs[3]);
  }

  lemma PassedCountOne(c: CheckResult)
    ensures PassedCount([c]) == if c.status == Passed then 1 else 0
  {
    assert [c][..0] == [];
  }

  /** After one more run the summary totals grow by four, and the passed count by
      the number of checks that passed. */
  lemma SummaryAfterRun(before: seq<CheckResult>, products: seq<Product>, rows: seq<EnrichedSale>)
    ensures |before + AllResults(products, rows)| == |before| + 4
    ensures PassedCount(before + AllResults(products, rows)) == PassedCount(before) + PassedCount(AllResults(products, rows))
    ensures AllChecksPass(products, rows) ==> PassedCount(before + AllResults(products, rows)) == PassedCount(before) + 4
  {
    PassedCountAppend(before, AllResults(products, rows));
    RunPassesAllIff(products, rows);
  }

  // ---------------------------------------------------------------------------
  // What the checks say about the Transformer's output
  // ---------------------------------------------------------------------------

  /** Any table whose totals are derived as enrichment derives them passes check 4. */
  lemma DerivedTotalsAreCorrect(rows: seq<EnrichedSale>)
    requires forall i :: 0 <= i < |rows| ==> rows[i].totalSales == Mul(rows[i].quantity, rows[i].priceSale)
    ensures TotalsCorrect(rows)
    ensures Count(rows, IncorrectTotal) == 0
  {
    CountZeroIff(rows, IncorrectTotal);
  }

  /** The snapshot the Transformer writes always passes check 4. */
  lemma TransformationPassesTotals(sales: seq<Sale>, products: seq<Product>)
    ensures TotalSalesResult(RunTransformation(sales, products)).status == Passed
  {
    DerivedTotalsAreCorrect(RunTransformation(sales, products));
  }

  /** The snapshot passes check 3 exactly when every complete sale names a product
      of the catalogue: the left join keeps unknown ids, so check 3 is what catches them. */
  lemma TransformationConsistencyIff(sales: seq<Sale>, products: seq<Product>)
    ensures ProductIdConsistencyResult(products, RunTransformation(sales, products)).status == Passed
        <==> forall s :: s in sales && IsComplete(s) ==> s.productId in CatalogueIds(products)
  {
    var out := RunTransformation(sales, products);
    assert TransformedIds(out) == (set s | s in Clean(sales) :: s.productId);
  }

  // ---------------------------------------------------------------------------
  // The checker and its list of results
  // ---------------------------------------------------------------------------

  class QualityChecker {
    /** `check_results`: every record appended so far, oldest first; never cleared. */
    var checkResults: seq<CheckResult>

    constructor ()
      ensures checkResults == []
    {
      checkResults := [];
    }

    method CheckMissingSaleIds(df: seq<EnrichedSale>) returns (passed: bool)
      modifies this
      ensures passed <==> NoMissingSaleIds(df)
      ensures checkResults == old(checkResults) + [MissingSaleIdsResult(df)]
    {
      var missing := Count(df, MissingSaleId);
      passed := missing == 0;
      var result := CheckResult("Missing Sale IDs", if passed then Passed else Failed,
        "Found " + DecimalString(missing) + " missing sale IDs");
      checkResults := checkResults + [result];
      CountZeroIff(df, MissingSaleId);
    }

    method CheckNegativeValues(df: seq<EnrichedSale>) returns (passed: bool)
      modifies this
      ensures passed <==> NoNegativeValues(df)
      ensures checkResults == old(checkResults) + [NegativeValuesResult(df)]
    {
      var negQuantity := Count(df, NegativeQuantity);
      var negPrice := Count(df, NegativePrice);
      passed := negQuantity == 0 && negPrice == 0;
      var result := CheckResult("Negative Values", if passed then Passed else Failed,
        "Found " + DecimalString(negQuantity) + " negative quantities and "
        + DecimalString(negPrice) + " negative prices");
      checkResults := checkResults + [result];
      CountZeroIff(df, NegativeQuantity);
      CountZeroIff(df, NegativePrice);
    }

    method CheckProductIdConsistency(products: seq<Product>, transformed: seq<EnrichedSale>) returns (passed: bool)
      modifies this
      ensures passed <==> ProductIdsConsistent(products, transformed)
      ensures checkResults == old(checkResults) + [ProductIdConsistencyResult(products, transformed)]
    {
      var productIds := CatalogueIds(products);
      var transformedIds := TransformedIds(transformed);
      var invalidIds := transformedIds - productIds;
      assert invalidIds == InvalidProductIds(products, transformed);
      passed := |invalidIds| == 0;
      var result := CheckResult("Product ID Consistency", if passed then Passed else Failed,
        "Found " + DecimalString(|invalidIds|) + " invalid product IDs");
      checkResults := checkResults + [result];
    }

    method ValidateTotalSalesCalculation(df: seq<EnrichedSale>) returns (passed: bool)
      modifies this
      ensures passed <==> TotalsCorrect(df)
      ensures checkResults == old(checkResults) + [TotalSalesResult(df)]
    {
      var incorrect := Count(df, IncorrectTotal);
      passed := incorrect == 0;
      var result := CheckResult("Total Sales Calculation", if passed then Passed else Failed,
        "Found " + DecimalString(incorrect) + " incorrect total_sales calculations");
      checkResults := checkResults + [result];
      CountZeroIff(df, IncorrectTotal);
    }

    /** `run_all_checks` on already loaded tables: all four checks always run and
        append in order; the verdict is their conjunction. */
    method RunAllChecks(products: seq<Product>, transformed: seq<EnrichedSale>) returns (allPassed: bool)
      modifies this
      ensures allPassed <==> AllChecksPass(products, transformed)
      ensures checkResults == old(checkResults) + AllResults(products, transformed)
    {
      var missingOk := CheckMissingSaleIds(transformed);
      var negativeOk := CheckNegativeValues(transformed);
      var consistencyOk := CheckProductIdConsistency(products, transformed);
      var totalsOk := ValidateTotalSalesCalculation(transformed);
      assert checkResults == old(checkResults) + [MissingSaleIdsResult(transformed)] + [NegativeValuesResult(transformed)]
        + [ProductIdConsistencyResult(products, transformed)] + [TotalSalesResult(transformed)];
      assert checkResults == old(checkResults) + AllResults(products, transformed);
      allPassed := missingOk && negativeOk && consistencyOk && totalsOk;
      var _ := GenerateSummary();
    }

    /** `generate_summary`'s figures: the number of results, how many are PASSED,
        and the rest as failed. */
    method GenerateSummary() returns (s: Summary)
      ensures s.total == |checkResults|
      ensures s.passed == PassedCount(checkResults)
      ensures s.failed == s.total - s.passed
    {
      var passed := 0;
      var i := 0;
      while i < |checkResults|
        invariant 0 <= i <= |checkResults|
        invariant passed == PassedCount(checkResults[..i])
      {
        assert checkResults[..i + 1][..i] == checkResults[..i];
        if checkResults[i].status == Passed {
          passed := passed + 1;
        }
        i := i + 1;
      }
      assert checkResults[..i] == checkResults;
      s := Summary(|checkResults|, passed, |checkResults| - passed);
    }
  }
}
