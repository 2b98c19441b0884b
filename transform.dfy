/** The Transformer: drops incomplete sales, left-joins the rest onto the
    product catalogue, derives `total_sales` and projects to the 11 columns of
    the enriched snapshot. Modelled on whole tables held as sequences of rows. */
module Transform {
  import opened Common

  // ---------------------------------------------------------------------------
  // Records
  // ---------------------------------------------------------------------------

  /** A staged sale. Every cell that pandas can hold as NaN is an Option. */
  datatype Sale = Sale(
    saleId: Option<string>,
    productId: Option<string>,
    saleDate: Option<Date>,
    quantity: Option<int>,
    price: Option<real>,
    ingestionTimestamp: Timestamp)

  /** A staged catalogue product. */
  datatype Product = Product(
    productId: string,
    productName: string,
    category: string,
    price: real,
    ingestionTimestamp: Timestamp)

  /** A row of the enriched snapshot, with its 11 columns in snapshot order. */
  datatype EnrichedSale = EnrichedSale(
    saleId: Option<string>,
    productId: Option<string>,
    saleDate: Option<Date>,
    quantity: Option<int>,
    priceSale: Option<real>,
    priceProduct: Option<real>,
    productName: Option<string>,
    category: Option<string>,
    totalSales: Option<real>,
    ingestionTimestampSale: Timestamp,
    ingestionTimestampProduct: Option<Timestamp>)

  // ---------------------------------------------------------------------------
  // Column names: the merge with its suffixes, and the final projection
  // ---------------------------------------------------------------------------

  /** A column name before suffixing. */
  datatype BaseName =
    | SaleIdName | ProductIdName | SaleDateName | QuantityName | PriceName
    | IngestionTimestampName | ProductNameName | CategoryName | TotalSalesName

  /** Which side of the merge a suffix names: `_sale` (left) or `_product` (right). */
  datatype Side = SaleSide | ProductSide

  /** A column name: a base name, possibly with a merge suffix. */
  datatype Column = Plain(base: BaseName) | Suffixed(base: BaseName, side: Side)

  /** Columns of the staged sales, after ingestion stamped them. */
  const SaleColumns: seq<Column> := [
    Plain(SaleIdName), Plain(ProductIdName), Plain(SaleDateName), Plain(QuantityName),
    Plain(PriceName), Plain(IngestionTimestampName)]

  /** Columns of the staged products, after ingestion stamped them. */
  const ProductColumns: seq<Column> := [
    Plain(ProductIdName), Plain(ProductNameName), Plain(CategoryName), Plain(PriceName),
    Plain(IngestionTimestampName)]

  /** The projection list (`sale_id` ... `ingestion_timestamp_product`), in snapshot order. */
  const EnrichedColumns: seq<Column> := [
    Plain(SaleIdName), Plain(ProductIdName), Plain(SaleDateName), Plain(QuantityName),
    Suffixed(PriceName, SaleSide), Suffixed(PriceName, ProductSide), Plain(ProductNameName),
    Plain(CategoryName), Plain(TotalSalesName), Suffixed(IngestionTimestampName, SaleSide),
    Suffixed(IngestionTimestampName, ProductSide)]

  datatype SchemaError = MissingJoinKey(column: Column) | MissingColumn(column: Column)

  /** A column after the merge: a non-key column present on both sides gets the suffix of its side.
      A column carries at most one suffix here; pandas would append a second one to a column
      already named `x_sale` that both sides share, which the staged inputs never have. */
  function Rename(c: Column, other: seq<Column>, key: Column, side: Side): Column
  {
    if c != key && c in other && c.Plain? then Suffixed(c.base, side) else c
  }

  function RenameAll(cs: seq<Column>, other: seq<Column>, key: Column, side: Side): (r: seq<Column>)
    ensures |r| == |cs|
    ensures forall i :: 0 <= i < |cs| ==> r[i] == Rename(cs[i], other, key, side)
  {
    if cs == [] then [] else [Rename(cs[0], other, key, side)] + RenameAll(cs[1..], other, key, side)
  }

  /** The columns with every occurrence of `key` removed, the rest in order. */
  function Without(cs: seq<Column>, key: Column): (r: seq<Column>)
    ensures key !in cs ==> r == cs
    ensures key !in r && |r| <= |cs|
    ensures forall c :: c in r <==> c in cs && c != key
    ensures key in cs ==> |r| < |cs|
  {
    if cs == [] then [] else (if cs[0] == key then [] else [cs[0]]) + Without(cs[1..], key)
  }

  lemma WithoutAbsentKey(cs: seq<Column>, key: Column)
    requires key !in cs
    ensures Without([key] + cs, key) == cs
  {
    assert ([key] + cs)[1..] == cs;
  }

  /** The columns of a left merge on `key`: the left columns, then the right ones
      without the key; names present on both sides are suffixed `_sale`/`_product`.
      A key absent from either side raises. */
  function MergeColumns(left: seq<Column>, right: seq<Column>, key: Column): (r: Result<seq<Column>, SchemaError>)
    ensures r.Success? <==> key in left && key in right
    ensures r.Success? ==> |r.value| == |left| + |Without(right, key)|
  {
    if key !in left || key !in right then Failure(MissingJoinKey(key))
    else Success(RenameAll(left, right, key, SaleSide) + RenameAll(Without(right, key), left, key, ProductSide))
  }

  /** Assigning a column keeps an existing one in place, or appends a new one. */
  function WithColumn(cs: seq<Column>, c: Column): (r: seq<Column>)
    ensures c in r
    ensures c in cs ==> r == cs
    ensures c !in cs ==> r == cs + [c] && r[|cs|] == c
  {
    if c in cs then cs else cs + [c]
  }

  /** Column selection: the listed columns in the listed order, or an error naming a missing one. */
  function Select(cs: seq<Column>, keep: seq<Column>): (r: Result<seq<Column>, SchemaError>)
    ensures r.Success? <==> forall c :: c in keep ==> c in cs
    ensures r.Success? ==> r.value == keep
    ensures r.Failure? ==> r.error.MissingColumn? && r.error.column in keep && r.error.column !in cs
  {
    if keep == [] then Success([])
    else if keep[0] !in cs then Failure(MissingColumn(keep[0]))
    else match Select(cs, keep[1..])
      case Success(rest) => Success([keep[0]] + rest)
      case Failure(e) => Failure(e)
  }

  /** The column list the enrichment step produces from the two input column lists. */
  function EnrichedSchema(saleCols: seq<Column>, productCols: seq<Column>): (r: Result<seq<Column>, SchemaError>)
    ensures r.Success? ==> r.value == EnrichedColumns
    ensures Plain(ProductIdName) !in saleCols || Plain(ProductIdName) !in productCols ==>
              r == Failure(MissingJoinKey(Plain(ProductIdName)))
  {
    match MergeColumns(saleCols, productCols, Plain(ProductIdName))
    case Failure(e) => Failure(e)
    case Success(merged) => Select(WithColumn(merged, Plain(TotalSalesName)), EnrichedColumns)
  }

  /** The merge of the staged columns, as pandas names them: the sales side, whose
      `price` and `ingestion_timestamp` are suffixed `_sale`, then the product side
      without the key, whose shared columns are suffixed `_product`. */
  const StagedSaleHalf: seq<Column> := [
    Plain(SaleIdName), Plain(ProductIdName), Plain(SaleDateName), Plain(QuantityName),
    Suffixed(PriceName, SaleSide), Suffixed(IngestionTimestampName, SaleSide)]

  const StagedProductHalf: seq<Column> := [
    Plain(ProductNameName), Plain(CategoryName), Suffixed(PriceName, ProductSide),
    Suffixed(IngestionTimestampName, ProductSide)]

  const StagedMerged: seq<Column> := StagedSaleHalf + StagedProductHalf

  // The merge of the staged columns, worked out one side at a time.

  lemma StagedSaleSide()
    ensures RenameAll(SaleColumns, ProductColumns, Plain(ProductIdName), SaleSide) == StagedSaleHalf
  {
    var key := Plain(ProductIdName);
    var l := RenameAll(SaleColumns, ProductColumns, key, SaleSide);
    assert l[0] == Rename(Plain(SaleIdName), ProductColumns, key, SaleSide) == Plain(SaleIdName);
    assert l[1] == Rename(Plain(ProductIdName), ProductColumns, key, SaleSide) == Plain(ProductIdName);
    assert l[2] == Rename(Plain(SaleDateName), ProductColumns, key, SaleSide) == Plain(SaleDateName);
    assert l[3] == Rename(Plain(QuantityName), ProductColumns, key, SaleSide) == Plain(QuantityName);
    assert l[4] == Rename(Plain(PriceName), ProductColumns, key, SaleSide) == Suffixed(PriceName, SaleSide);
    assert l[5] == Rename(Plain(IngestionTimestampName), ProductColumns, key, SaleSide)
                == Suffixed(IngestionTimestampName, SaleSide);
  }

  lemma StagedProductsWithoutKey()
    ensures Without(ProductColumns, Plain(ProductIdName)) == ProductColumns[1..]
  {
    assert ProductColumns == [Plain(ProductIdName)] + ProductColumns[1..];
    WithoutAbsentKey(ProductColumns[1..], Plain(ProductIdName));
  }

  /** Which base names the staged sales carry, unsuffixed. */
  lemma SaleColumnsMembers()
    ensures Plain(PriceName) in SaleColumns && Plain(IngestionTimestampName) in SaleColumns
    ensures Plain(ProductNameName) !in SaleColumns && Plain(CategoryName) !in SaleColumns
  {
    assert SaleColumns[4] == Plain(PriceName) && SaleColumns[5] == Plain(IngestionTimestampName);
  }

  lemma RenameAllThree(a: Column, b: Column, c: Column, other: seq<Column>, key: Column, side: Side)
    ensures RenameAll([a, b, c], other, key, side)
         == [Rename(a, other, key, side), Rename(b, other, key, side), Rename(c, other, key, side)]
  {
  }

  lemma RenameAllFour(a: Column, b: Column, c: Column, d: Column, other: seq<Column>, key: Column, side: Side)
    ensures RenameAll([a, b, c, d], other, key, side)
         == [Rename(a, other, key, side), Rename(b, other, key, side), Rename(c, other, key, side), Rename(d, other, key, side)]
  {
  }

  lemma StagedProductSide()
    ensures RenameAll(ProductColumns[1..], SaleColumns, Plain(ProductIdName), ProductSide) == StagedProductHalf
  {
    var tail := [Plain(ProductNameName), Plain(CategoryName), Plain(PriceName), Plain(IngestionTimestampName)];
    assert ProductColumns[1..] == tail;
    assert RenameAll(tail, SaleColumns, Plain(ProductIdName), ProductSide) == StagedProductHalf by {
      SaleColumnsMembers();
      RenameAllFour(tail[0], tail[1], tail[2], tail[3], SaleColumns, Plain(ProductIdName), ProductSide);
    }
  }

  lemma StagedMerge()
    ensures MergeColumns(SaleColumns, ProductColumns, Plain(ProductIdName)) == Success(StagedMerged)
  {
    assert SaleColumns[1] == Plain(ProductIdName) && ProductColumns[0] == Plain(ProductIdName);
    StagedSaleSide();
    StagedProductsWithoutKey();
    StagedProductSide();
  }

  /** Adding `total_sales` to the staged merge and projecting yields the 11 enriched columns. */
  lemma StagedProjection()
    ensures Select(WithColumn(StagedMerged, Plain(TotalSalesName)), EnrichedColumns) == Success(EnrichedColumns)
  {
    assert WithColumn(StagedMerged, Plain(TotalSalesName)) == StagedMerged + [Plain(TotalSalesName)];
  }

  /** The staged columns merge into `StagedMerged` (`price` and `ingestion_timestamp`
      are on both sides and come out suffixed), and the projection then succeeds
      with exactly the 11 enriched columns in order. */
  lemma StagedColumnsProjectToEnriched()
    ensures MergeColumns(SaleColumns, ProductColumns, Plain(ProductIdName)) == Success(StagedMerged)
    ensures EnrichedSchema(SaleColumns, ProductColumns) == Success(EnrichedColumns)
  {
    StagedMerge();
    StagedProjection();
  }

  /** The merge of the sales columns with products that carry no ingestion timestamp:
      the sales' `ingestion_timestamp` is no longer shared, so it keeps its name. */
  const UnstampedSaleHalf: seq<Column> := [
    Plain(SaleIdName), Plain(ProductIdName), Plain(SaleDateName), Plain(QuantityName),
    Suffixed(PriceName, SaleSide), Plain(IngestionTimestampName)]

  const UnstampedProductHalf: seq<Column> := [
    Plain(ProductNameName), Plain(CategoryName), Suffixed(PriceName, ProductSide)]

  const UnstampedMerged: seq<Column> := UnstampedSaleHalf + UnstampedProductHalf

  lemma UnstampedSaleSide()
    ensures RenameAll(SaleColumns, ProductColumns[..4], Plain(ProductIdName), SaleSide) == UnstampedSaleHalf
  {
    var key := Plain(ProductIdName);
    var pc := ProductColumns[..4];
    assert pc == [key, Plain(ProductNameName), Plain(CategoryName), Plain(PriceName)];
    var l := RenameAll(SaleColumns, pc, key, SaleSide);
    assert l[0] == Rename(Plain(SaleIdName), pc, key, SaleSide) == Plain(SaleIdName);
    assert l[1] == Rename(Plain(ProductIdName), pc, key, SaleSide) == Plain(ProductIdName);
    assert l[2] == Rename(Plain(SaleDateName), pc, key, SaleSide) == Plain(SaleDateName);
    assert l[3] == Rename(Plain(QuantityName), pc, key, SaleSide) == Plain(QuantityName);
    assert l[4] == Rename(Plain(PriceName), pc, key, SaleSide) == Suffixed(PriceName, SaleSide);
    assert l[5] == Rename(Plain(IngestionTimestampName), pc, key, SaleSide) == Plain(IngestionTimestampName);
  }

  lemma UnstampedProductsWithoutKey()
    ensures Without(ProductColumns[..4], Plain(ProductIdName)) == ProductColumns[1..4]
  {
    assert ProductColumns[..4] == [Plain(ProductIdName)] + ProductColumns[1..4];
    WithoutAbsentKey(ProductColumns[1..4], Plain(ProductIdName));
  }

  lemma UnstampedProductSide()
    ensures RenameAll(ProductColumns[1..4], SaleColumns, Plain(ProductIdName), ProductSide) == UnstampedProductHalf
  {
    var tail := [Plain(ProductNameName), Plain(CategoryName), Plain(PriceName)];
    assert ProductColumns[1..4] == tail;
    assert RenameAll(tail, SaleColumns, Plain(ProductIdName), ProductSide) == UnstampedProductHalf by {
      SaleColumnsMembers();
      RenameAllThree(tail[0], tail[1], tail[2], SaleColumns, Plain(ProductIdName), ProductSide);
    }
  }

  lemma UnstampedMerge()
    ensures MergeColumns(SaleColumns, ProductColumns[..4], Plain(ProductIdName)) == Success(UnstampedMerged)
  {
    assert SaleColumns[1] == Plain(ProductIdName) && ProductColumns[..4][0] == Plain(ProductIdName);
    UnstampedSaleSide();
    UnstampedProductsWithoutKey();
    UnstampedProductSide();
  }

  /** Without an ingestion timestamp on the products, the sales' timestamp is not
      suffixed and the projection raises on `ingestion_timestamp_sale`. */
  lemma UnstampedProductsFailProjection()
    ensures EnrichedSchema(SaleColumns, ProductColumns[..4])
      == Failure(MissingColumn(Suffixed(IngestionTimestampName, SaleSide)))
  {
    UnstampedMerge();
    UnstampedWithTotal();
    UnstampedProjectionPrefix();
    UnstampedSaleStampMissing();
    SelectFirstMissing(UnstampedMerged + [Plain(TotalSalesName)], EnrichedColumns, 9);
  }

  lemma UnstampedWithTotal()
    ensures WithColumn(UnstampedMerged, Plain(TotalSalesName)) == UnstampedMerged + [Plain(TotalSalesName)]
  {
    assert Plain(TotalSalesName) !in UnstampedMerged;
  }

  /** The first nine projected columns are all present... */
  lemma UnstampedProjectionPrefix()
    ensures forall i :: 0 <= i < 9 ==> EnrichedColumns[i] in UnstampedMerged + [Plain(TotalSalesName)]
  {
    var cs := UnstampedMerged + [Plain(TotalSalesName)];
    var e := EnrichedColumns;
    assert e[0] == cs[0] && e[1] == cs[1] && e[2] == cs[2] && e[3] == cs[3] && e[4] == cs[4];
    assert e[5] == cs[8] && e[6] == cs[6] && e[7] == cs[7] && e[8] == cs[9];
  }

  /** ...and the tenth, `ingestion_timestamp_sale`, is not. */
  lemma UnstampedSaleStampMissing()
    ensures EnrichedColumns[9] !in UnstampedMerged + [Plain(TotalSalesName)]
  {
  }

  /** Selection raises on the first listed column that is missing. */
  lemma {:induction false} SelectFirstMissing(cs: seq<Column>, keep: seq<Column>, k: nat)
    requires k < |keep| && keep[k] !in cs
    requires forall i :: 0 <= i < k ==> keep[i] in cs
    ensures Select(cs, keep) == Failure(MissingColumn(keep[k]))
  {
    if k > 0 {
      SelectFirstMissing(cs, keep[1..], k - 1);
    }
  }

  lemma ConcatAssoc<T>(x: seq<T>, y: seq<T>, z: seq<T>)
    ensures x + (y + z) == (x + y) + z
  {
  }

  // ---------------------------------------------------------------------------
  // Cleaning
  // ---------------------------------------------------------------------------

  /** A sale survives cleaning when it has both a product id and a sale date. */
  predicate IsComplete(s: Sale)
  {
    s.productId.Some? && s.saleDate.Some?
  }

  /** `dropna` on `product_id` and `sale_date`. */
  function Clean(sales: seq<Sale>): (r: seq<Sale>)
    ensures |r| <= |sales|
    ensures forall s :: s in r <==> s in sales && IsComplete(s)
  {
    if sales == [] then []
    else (if IsComplete(sales[0]) then [sales[0]] else []) + Clean(sales[1..])
  }

  /** Cleaning is an order-preserving filter: it distributes over concatenation and
      keeps or drops each single row according to `IsComplete`. */
  lemma {:induction false} CleanIsOrderPreservingFilter(a: seq<Sale>, b: seq<Sale>, s: Sale)
    ensures Clean(a + b) == Clean(a) + Clean(b)
    ensures Clean([s]) == if IsComplete(s) then [s] else []
  {
    CleanDistributes(a, b);
    assert [s][1..] == [];
  }

  lemma {:induction false} CleanDistributes(a: seq<Sale>, b: seq<Sale>)
    ensures Clean(a + b) == Clean(a) + Clean(b)
  {
    if a == [] {
      assert a + b == b;
    } else {
      var head := if IsComplete(a[0]) then [a[0]] else [];
      assert (a + b)[0] == a[0];
      assert (a + b)[1..] == a[1..] + b;
      assert Clean(a + b) == head + Clean(a[1..] + b);
      CleanDistributes(a[1..], b);
      ConcatAssoc(head, Clean(a[1..]), Clean(b));
    }
  }

  /** A table with no incomplete row passes through cleaning unchanged, so cleaning is idempotent. */
  lemma {:induction false} CleanKeepsCompleteTable(sales: seq<Sale>)
    requires forall i :: 0 <= i < |sales| ==> IsComplete(sales[i])
    ensures Clean(sales) == sales
    ensures Clean(Clean(sales)) == Clean(sales)
  {
    if sales != [] {
      CleanKeepsCompleteTable(sales[1..]);
      assert [sales[0]] + sales[1..] == sales;
    }
  }

  function CountIncomplete(sales: seq<Sale>): nat
  {
    if sales == [] then 0 else (if IsComplete(sales[0]) then 0 else 1) + CountIncomplete(sales[1..])
  }

  lemma {:induction false} CleanCountsComplete(sales: seq<Sale>)
    ensures |Clean(sales)| + CountIncomplete(sales) == |sales|
  {
    if sales != [] {
      CleanCountsComplete(sales[1..]);
    }
  }

  /** The `rows_removed` figure the cleaning step logs: the number of incomplete
      rows, which is the drop in length and never negative. */
  function RowsRemoved(sales: seq<Sale>): (n: nat)
    ensures n == CountIncomplete(sales)
    ensures n + |Clean(sales)| == |sales|
  {
    CleanCountsComplete(sales);
    |sales| - |Clean(sales)|
  }

  // ---------------------------------------------------------------------------
  // Left join and derivation of total_sales
  // ---------------------------------------------------------------------------

  /** The catalogue rows whose product id equals the sale's, in catalogue order. */
  function Matches(productId: Option<string>, products: seq<Product>): (r: seq<Product>)
    ensures |r| <= |products|
    ensures forall p :: p in r <==> p in products && productId == Some(p.productId)
  {
    if products == [] then []
    else
      var head := if productId == Some(products[0].productId) then [products[0]] else [];
      head + Matches(productId, products[1..])
  }

  /** Matching is an order-preserving filter of the catalogue: it distributes over
      concatenation and keeps a single row exactly when its id is the sale's, so every
      matching row, duplicates included, appears once per occurrence in catalogue order. */
  lemma {:induction false} MatchesIsOrderPreservingFilter(productId: Option<string>, a: seq<Product>, b: seq<Product>, p: Product)
    ensures Matches(productId, a + b) == Matches(productId, a) + Matches(productId, b)
    ensures Matches(productId, [p]) == if productId == Some(p.productId) then [p] else []
  {
    MatchesDistributes(productId, a, b);
    assert [p][1..] == [];
  }

  lemma {:induction false} MatchesDistributes(productId: Option<string>, a: seq<Product>, b: seq<Product>)
    ensures Matches(productId, a + b) == Matches(productId, a) + Matches(productId, b)
  {
    if a == [] {
      assert a + b == b;
    } else {
      var head := if productId == Some(a[0].productId) then [a[0]] else [];
      assert (a + b)[0] == a[0];
      assert (a + b)[1..] == a[1..] + b;
      assert Matches(productId, a + b) == head + Matches(productId, a[1..] + b);
      MatchesDistributes(productId, a[1..], b);
      ConcatAssoc(head, Matches(productId, a[1..]), Matches(productId, b));
    }
  }

  /** `quantity * price_sale`, NaN when either operand is. */
  function Mul(quantity: Option<int>, price: Option<real>): (r: Option<real>)
    ensures r.Some? <==> quantity.Some? && price.Some?
    ensures r.Some? ==> r.value == quantity.value as real * price.value
    ensures r.Some? && quantity.value >= 0 && price.value >= 0.0 ==> r.value >= 0.0
  {
    if quantity.Some? && price.Some? then Some(quantity.value as real * price.value) else None
  }

  /** One output row of the merge for a sale and its matched product (or none),
      with `total_sales` derived and the columns projected. */
  function JoinRow(s: Sale, p: Option<Product>): EnrichedSale
  {
    EnrichedSale(
      saleId := s.saleId,
      productId := s.productId,
      saleDate := s.saleDate,
      quantity := s.quantity,
      priceSale := s.price,
      priceProduct := if p.Some? then Some(p.value.price) else None,
      productName := if p.Some? then Some(p.value.productName) else None,
      category := if p.Some? then Some(p.value.category) else None,
      totalSales := Mul(s.quantity, s.price),
      ingestionTimestampSale := s.ingestionTimestamp,
      ingestionTimestampProduct := if p.Some? then Some(p.value.ingestionTimestamp) else None)
  }

  /** The sale's own columns of an enriched row are copied from the sale. */
  predicate SaleFieldsAgree(r: EnrichedSale, s: Sale)
  {
    && r.saleId == s.saleId
    && r.productId == s.productId
    && r.saleDate == s.saleDate
    && r.quantity == s.quantity
    && r.priceSale == s.price
    && r.ingestionTimestampSale == s.ingestionTimestamp
  }

  /** The product columns of an enriched row come from `p`, or are all null. */
  predicate ProductFieldsAgree(r: EnrichedSale, p: Option<Product>)
  {
    match p
    case Some(q) =>
      && r.priceProduct == Some(q.price)
      && r.productName == Some(q.productName)
      && r.category == Some(q.category)
      && r.ingestionTimestampProduct == Some(q.ingestionTimestamp)
    case None =>
      && r.priceProduct.None?
      && r.productName.None?
      && r.category.None?
      && r.ingestionTimestampProduct.None?
  }

  /** The rows a left join emits for one sale: one per matching product, or a
      single row with null product columns when nothing matches. */
  function JoinSale(s: Sale, products: seq<Product>): (r: seq<EnrichedSale>)
    ensures |r| == if Matches(s.productId, products) == [] then 1 else |Matches(s.productId, products)|
    ensures forall j :: 0 <= j < |r| ==> SaleFieldsAgree(r[j], s)
    ensures forall j :: 0 <= j < |r| ==> r[j].totalSales == Mul(s.quantity, s.price)
    ensures Matches(s.productId, products) == [] ==> ProductFieldsAgree(r[0], None)
    ensures forall j :: 0 <= j < |r| && Matches(s.productId, products) != [] ==>
              ProductFieldsAgree(r[j], Some(Matches(s.productId, products)[j]))
  {
    var m := Matches(s.productId, products);
    if m == [] then [JoinRow(s, None)]
    else seq(|m|, j requires 0 <= j < |m| => JoinRow(s, Some(m[j])))
  }

  /** `join_and_enrich_data`: the left merge on `product_id`, in sales order. */
  function JoinAndEnrich(sales: seq<Sale>, products: seq<Product>): (r: seq<EnrichedSale>)
    ensures |r| >= |sales|
    ensures forall i :: 0 <= i < |r| ==> r[i].totalSales == Mul(r[i].quantity, r[i].priceSale)
  {
    if sales == [] then []
    else JoinSale(sales[0], products) + JoinAndEnrich(sales[1..], products)
  }

  lemma {:induction false} JoinDistributes(a: seq<Sale>, b: seq<Sale>, products: seq<Product>)
    ensures JoinAndEnrich(a + b, products) == JoinAndEnrich(a, products) + JoinAndEnrich(b, products)
  {
    if a == [] {
      assert a + b == b;
    } else {
      var head := JoinSale(a[0], products);
      assert (a + b)[0] == a[0];
      assert (a + b)[1..] == a[1..] + b;
      assert JoinAndEnrich(a + b, products) == head + JoinAndEnrich(a[1..] + b, products);
      JoinDistributes(a[1..], b, products);
      ConcatAssoc(head, JoinAndEnrich(a[1..], products), JoinAndEnrich(b, products));
    }
  }

  /** Every enriched row copies its sale columns from some input sale. */
  lemma {:induction false} JoinRowsComeFromSales(sales: seq<Sale>, products: seq<Product>)
    ensures forall r :: r in JoinAndEnrich(sales, products) ==>
              exists s :: s in sales && SaleFieldsAgree(r, s)
  {
    if sales != [] {
      JoinRowsComeFromSales(sales[1..], products);
      forall r | r in JoinAndEnrich(sales, products)
        ensures exists s :: s in sales && SaleFieldsAgree(r, s)
      {
        var head := JoinSale(sales[0], products);
        if r in head {
          var j :| 0 <= j < |head| && head[j] == r;
          assert SaleFieldsAgree(r, sales[0]);
        } else {
          assert r in JoinAndEnrich(sales[1..], products);
          var s :| s in sales[1..] && SaleFieldsAgree(r, s);
          assert s in sales;
        }
      }
    }
  }

  /** The product ids of the enriched table are those of its sales. */
  lemma {:induction false} JoinProductIds(sales: seq<Sale>, products: seq<Product>)
    ensures (set r | r in JoinAndEnrich(sales, products) :: r.productId)
         == (set s | s in sales :: s.productId)
  {
    if sales != [] {
      JoinProductIds(sales[1..], products);
      JoinSaleIds(sales[0], products);
      EnrichedIdsAppend(JoinSale(sales[0], products), JoinAndEnrich(sales[1..], products));
      SaleIdsCons(sales);
    }
  }

  lemma JoinSaleIds(s: Sale, products: seq<Product>)
    ensures (set r | r in JoinSale(s, products) :: r.productId) == {s.productId}
  {
    var head := JoinSale(s, products);
    assert head[0].productId == s.productId;
  }

  lemma EnrichedIdsAppend(a: seq<EnrichedSale>, b: seq<EnrichedSale>)
    ensures (set r | r in a + b :: r.productId)
         == (set r | r in a :: r.productId) + (set r | r in b :: r.productId)
  {
  }

  lemma SaleIdsCons(sales: seq<Sale>)
    requires sales != []
    ensures (set s | s in sales :: s.productId)
         == {sales[0].productId} + (set s | s in sales[1..] :: s.productId)
  {
    assert sales == [sales[0]] + sales[1..];
  }

  /** No two catalogue rows share a product id. */
  predicate UniqueProductIds(products: seq<Product>)
  {
    forall i, j :: 0 <= i < j < |products| ==> products[i].productId != products[j].productId
  }

  /** The catalogue row with the given product id, if there is one. */
  function Lookup(productId: Option<string>, products: seq<Product>): (r: Option<Product>)
    ensures r.Some? ==> r.value in products && productId == Some(r.value.productId)
    ensures r.None? <==> forall p :: p in products ==> productId != Some(p.productId)
  {
    if products == [] then None
    else if productId == Some(products[0].productId) then Some(products[0])
    else Lookup(productId, products[1..])
  }

  lemma {:induction false} UniqueMatchesAtMostOne(productId: Option<string>, products: seq<Product>)
    requires UniqueProductIds(products)
    ensures Matches(productId, products) == if Lookup(productId, products).Some? then [Lookup(productId, products).value] else []
  {
    if products != [] {
      UniqueMatchesAtMostOne(productId, products[1..]);
      if productId == Some(products[0].productId) {
        forall p | p in products[1..] ensures productId != Some(p.productId) {
          var j :| 0 <= j < |products[1..]| && products[1..][j] == p;
          assert products[j + 1] == p;
        }
        assert Lookup(productId, products[1..]).None?;
      }
    }
  }

  /** With a catalogue of unique product ids the join emits exactly one row per
      sale, in sales order, carrying that sale's columns and the columns of the
      product with its id (or nulls when there is none). */
  lemma {:induction false} JoinWithUniqueCatalogue(sales: seq<Sale>, products: seq<Product>)
    requires UniqueProductIds(products)
    ensures |JoinAndEnrich(sales, products)| == |sales|
    ensures forall i :: 0 <= i < |sales| ==>
              && SaleFieldsAgree(JoinAndEnrich(sales, products)[i], sales[i])
              && ProductFieldsAgree(JoinAndEnrich(sales, products)[i], Lookup(sales[i].productId, products))
  {
    if sales != [] {
      JoinWithUniqueCatalogue(sales[1..], products);
      UniqueMatchesAtMostOne(sales[0].productId, products);
      var head := JoinSale(sales[0], products);
      var rest := JoinAndEnrich(sales[1..], products);
      assert |head| == 1;
      forall i | 0 <= i < |sales|
        ensures && SaleFieldsAgree((head + rest)[i], sales[i])
                && ProductFieldsAgree((head + rest)[i], Lookup(sales[i].productId, products))
      {
        if i > 0 {
          assert (head + rest)[i] == rest[i - 1];
          assert sales[1..][i - 1] == sales[i];
        }
      }
    }
  }

  // ---------------------------------------------------------------------------
  // The transformation as a whole
  // ---------------------------------------------------------------------------

  /** Enriching rows that all passed cleaning keeps their product id and sale date. */
  lemma JoinKeepsKeys(cleaned: seq<Sale>, products: seq<Product>)
    requires forall s :: s in cleaned ==> IsComplete(s)
    ensures forall r :: r in JoinAndEnrich(cleaned, products) ==> r.productId.Some? && r.saleDate.Some?
  {
    JoinRowsComeFromSales(cleaned, products);
    forall r | r in JoinAndEnrich(cleaned, products) ensures r.productId.Some? && r.saleDate.Some? {
      var s :| s in cleaned && SaleFieldsAgree(r, s);
    }
  }

  /** `run_transformation` without its file I/O: enrich the cleaned sales. Every
      row has a product id and a sale date and a correctly derived total; with a
      catalogue of unique ids there is one row per cleaned sale. */
  function RunTransformation(sales: seq<Sale>, products: seq<Product>): (r: seq<EnrichedSale>)
    ensures forall i :: 0 <= i < |r| ==> r[i].productId.Some? && r[i].saleDate.Some?
    ensures forall i :: 0 <= i < |r| ==> r[i].totalSales == Mul(r[i].quantity, r[i].priceSale)
    ensures UniqueProductIds(products) ==> |r| == |Clean(sales)|
    ensures (set e | e in r :: e.productId) == (set s | s in Clean(sales) :: s.productId)
  {
    var cleaned := Clean(sales);
    JoinKeepsKeys(cleaned, products);
    JoinProductIds(cleaned, products);
    if UniqueProductIds(products) then
      JoinWithUniqueCatalogue(cleaned, products);
      JoinAndEnrich(cleaned, products)
    else
      JoinAndEnrich(cleaned, products)
  }
}
