/** Worked examples through the stages: the model on small concrete tables. */
module Scenarios {
  import opened Common
  import opened Transform
  import opened Quality
  import opened Warehouse

  const Widget: Product := Product("P1", "Widget", "Home", 10.0, 200)

  const Catalogue: seq<Product> := [Widget]

  /** A complete sale of two widgets. */
  const FirstSale: Sale := Sale(Some("1"), Some("P1"), Some(Date(2023, 1, 1)), Some(2), Some(10.0), 100)

  /** A sale without a product id. */
  const SecondSale: Sale := Sale(Some("2"), None, Some(Date(2023, 1, 2)), Some(1), Some(5.0), 100)

  const Sales: seq<Sale> := [FirstSale, SecondSale]

  /** The enriched form of `FirstSale`. */
  const FirstEnriched: EnrichedSale := EnrichedSale(
    Some("1"), Some("P1"), Some(Date(2023, 1, 1)), Some(2), Some(10.0), Some(10.0),
    Some("Widget"), Some("Home"), Some(20.0), 100, Some(200))

  /** Cleaning drops the sale without a product id. */
  lemma CleaningDropsSecondSale()
    ensures Clean(Sales) == [FirstSale]
    ensures RowsRemoved(Sales) == 1
  {
    assert Sales == [FirstSale] + [SecondSale];
    CleanIsOrderPreservingFilter([FirstSale], [SecondSale], FirstSale);
    CleanIsOrderPreservingFilter([SecondSale], [], SecondSale);
    assert [SecondSale] + [] == [SecondSale];
  }

  /** Enrichment yields one row, matched to the widget, with `total_sales` 20. */
  lemma EnrichmentYieldsOneRow()
    ensures RunTransformation(Sales, Catalogue) == [FirstEnriched]
  {
    CleaningDropsSecondSale();
    assert Matches(Some("P1"), Catalogue) == [Widget];
    assert JoinSale(FirstSale, Catalogue) == [FirstEnriched];
    assert [FirstSale][1..] == [];
  }

  /** A catalogue listing the widget twice: the left join emits the sale once per
      catalogue row. */
  lemma DuplicateCatalogueRowJoinsTwice()
    ensures JoinSale(FirstSale, [Widget, Widget]) == [FirstEnriched, FirstEnriched]
  {
    MatchesIsOrderPreservingFilter(FirstSale.productId, [Widget], [Widget], Widget);
    assert [Widget] + [Widget] == [Widget, Widget];
  }

  /** All four checks pass on that snapshot. */
  lemma FirstScenarioPassesGate()
    ensures AllChecksPass(Catalogue, RunTransformation(Sales, Catalogue))
  {
    EnrichmentYieldsOneRow();
    assert TransformedIds([FirstEnriched]) == {Some("P1")};
    assert CatalogueIds(Catalogue) == {Some("P1")};
  }

  /** A row with quantity -1. */
  const NegativeRow: EnrichedSale := FirstEnriched.(quantity := Some(-1), totalSales := Some(-10.0))

  /** Only the non-negativity check fails, reporting one negative quantity. */
  lemma NegativeQuantityFailsOneCheck()
    ensures NegativeValuesResult([NegativeRow]).status == Failed
    ensures NegativeValuesResult([NegativeRow]).details ==
      "Found " + DecimalString(1) + " negative quantities and " + DecimalString(0) + " negative prices"
    ensures NoMissingSaleIds([NegativeRow]) && TotalsCorrect([NegativeRow])
    ensures ProductIdsConsistent(Catalogue, [NegativeRow])
  {
    assert Count([NegativeRow], NegativeQuantity) == 1 by {
      assert [NegativeRow][1..] == [];
    }
    assert Count([NegativeRow], NegativePrice) == 0 by {
      assert [NegativeRow][1..] == [];
    }
    assert TransformedIds([NegativeRow]) == {Some("P1")};
    assert CatalogueIds(Catalogue) == {Some("P1")};
  }

  /** A row whose product id is not in the catalogue. */
  const UnknownProductRow: EnrichedSale := FirstEnriched.(productId := Some("P9"))

  /** The consistency check fails, reporting one invalid id. */
  lemma UnknownProductFailsConsistency()
    ensures ProductIdConsistencyResult(Catalogue, [UnknownProductRow]).status == Failed
    ensures ProductIdConsistencyResult(Catalogue, [UnknownProductRow]).details ==
      "Found " + DecimalString(1) + " invalid product IDs"
  {
    OneInvalidId();
  }

  lemma OneInvalidId()
    ensures |InvalidProductIds(Catalogue, [UnknownProductRow])| == 1
  {
    assert TransformedIds([UnknownProductRow]) == {Some("P9")};
    assert CatalogueIds(Catalogue) == {Some("P1")};
    assert InvalidProductIds(Catalogue, [UnknownProductRow]) == {Some("P9")};
  }

  /** The warehouse load of that same snapshot still succeeds: the gate does not
      block the loader. */
  lemma UnknownProductStillLoads()
    ensures SnapshotLoads([UnknownProductRow])
  {
    assert ValidDate(Date(2023, 1, 1));
    SnapshotLoadsIff([UnknownProductRow]);
  }
}
