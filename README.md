# Sales ETL pipeline core, modelled in Dafny

This project models the row-level core of a small batch ETL pipeline for sales
records:

- **Transformer.** It drops incomplete sales and left-joins the rest onto the
  product catalogue on `product_id`. Shared column names get `_sale` and
  `_product` suffixes. It derives `total_sales = quantity * price_sale` and
  projects to the 11 columns of the enriched snapshot.
- **Quality checker.** Four counting checks run over the snapshot, and each
  appends a `{check_name, status, details}` record to the checker's
  `check_results` list. The verdict is the conjunction of the four checks, and
  a summary counts the passed and failed records.
- **Warehouse loader.** It drops and recreates the 13-column `sales_data` table
  (primary key `sale_id`). It derives `sale_year` and `sale_month` from
  `sale_date`, bulk-inserts under the key, adds four indexes, and defines the
  `monthly_sales` and `category_performance` views.
- **Orchestrator.** Five stages run in a fixed order, each wrapped so that an
  exception becomes a `false` result. A results table starts all `false`. With
  `stop_on_failure`, the run exits at the first failure.

Tables are sequences of records, and nullable cells (pandas NaN, SQL NULL) are
`Option`. Prices and totals are exact `real`s, so the 0.01 tolerance of the
totals check is a plain comparison. Dates are `(year, month, day)` records.

Files:

- `common.dfy`: Option, Result, dates.
- `transform.dfy`: the Transformer. It is pure: functions and lemmas over
  sequences of rows, plus a column-level model of the merge and projection.
- `quality.dfy`: the class `QualityChecker` with its `checkResults` field,
  over pure counting functions.
- `warehouse.dfy`:
  - the class `SalesWarehouse`, which is the database state: table, schema,
    rows, index names, view names;
  - the class `WarehouseLoader`, whose methods change that state one statement
    at a time;
  - the pure partition-column derivation.
- `views.dfy`: the two views as pure SQL aggregation over the table's rows.
- `pipeline.dfy`: `run_pipeline` as a method over a results map, with the
  stage outcomes as inputs.
- `scenarios.dfy`: worked examples on small concrete tables.

Three behaviours of the code that a reader might not expect, all modelled as the
code has them:

- **Unknown product ids reach the snapshot.** The left join keeps a sale whose
  product id is not in the catalogue, with null product columns, so the
  snapshot's product ids need not be a subset of the catalogue's. Only the
  consistency check reports it: see `Quality.TransformationConsistencyIff` and
  `Scenarios.UnknownProductFailsConsistency`.
- **The warehouse loads before the checks run.** The orchestrator runs the
  warehouse stage before the quality stage, so a failing check never prevents
  the load (`Pipeline.QualityNeverBlocksWarehouse`,
  `Scenarios.UnknownProductStillLoads`).
- **A rejected load leaves an empty table.** The loader drops and recreates
  the table before it inserts. When the insert is rejected, the table exists
  but is empty and has no indexes; the previous contents are gone
  (`Warehouse.WarehouseLoader.RunWarehouseLoad`).

## Model

| member | source | states |
|---|---|---|
| Transform.Clean | src/transform.py:70 | The cleaned table holds exactly the input sales with both `product_id` and `sale_date` non-null, and is no longer than the input. |
| Transform.CleanIsOrderPreservingFilter | src/transform.py:70 | Cleaning distributes over concatenation and keeps or drops each single row by completeness, so row order is preserved. |
| Transform.CleanKeepsCompleteTable | src/transform.py:70 | A table with no incomplete row comes through cleaning unchanged, so cleaning twice is the same as cleaning once. |
| Transform.CleanCountsComplete | src/transform.py:66-74 | The cleaned length plus the number of incomplete rows is the input length. |
| Transform.RowsRemoved | src/transform.py:66-74 | `rows_removed` is a natural number equal to the number of incomplete rows, and it plus the cleaned length is the input length. |
| Transform.MergeColumns | src/transform.py:92-97 | The merge succeeds exactly when the key is on both sides. Its column count is the left columns plus the right columns other than the key. |
| Transform.Select | src/transform.py:122 | Projection succeeds exactly when every listed column is present, and then yields the listed columns in order. Otherwise the model's error names one listed column that is absent (pandas lists all of them). |
| Transform.WithColumn | src/transform.py:102 | Assigning `total_sales` keeps the existing columns in order: an existing column stays in place, and a new one is appended last. |
| Transform.EnrichedSchema | src/transform.py:92-122 | A successful merge and projection yields exactly the 11 snapshot columns. A join key missing from either side raises. |
| Transform.Without | src/transform.py:92-97 | The right side's columns without the join key: the key is gone, every other column is kept, and an absent key leaves the list unchanged. |
| Transform.RenameAll | src/transform.py:92-97 | Each column is renamed on its own: suffixed when it is not the key and it occurs on the other side. |
| Transform.StagedSaleSide | src/transform.py:92-97 | On the staged sales, `price` and `ingestion_timestamp` become `price_sale` and `ingestion_timestamp_sale`; the other columns keep their names. |
| Transform.StagedProductSide | src/transform.py:92-97 | On the staged products, after the key is dropped, `price` and `ingestion_timestamp` become `price_product` and `ingestion_timestamp_product`. |
| Transform.StagedMerge | src/transform.py:92-97 | The merged columns of the staged inputs are the sales side followed by the product side, in pandas order. |
| Transform.StagedProjection | src/transform.py:102-122 | Adding `total_sales` to the staged merge and projecting succeeds with exactly the 11 enriched columns. |
| Transform.StagedColumnsProjectToEnriched | src/transform.py:92-122 | The enrichment step's schema on the staged column lists is exactly the 11 listed columns in the listed order. |
| Transform.UnstampedMerge | src/transform.py:92-97 | When the products carry no `ingestion_timestamp`, the sales' timestamp is not shared and keeps its plain name. |
| Transform.UnstampedProductsFailProjection | src/transform.py:108-122 | Without the products' timestamp, the projection raises on `ingestion_timestamp_sale`. |
| Transform.SelectFirstMissing | src/transform.py:122 | The model's projection error names the first listed column that is absent. |
| Transform.Matches | src/transform.py:92-97 | A catalogue row matches a sale exactly when its id is the sale's product id; there are never more matches than catalogue rows. |
| Transform.MatchesIsOrderPreservingFilter | src/transform.py:92-97 | The matches are a filter of the catalogue that keeps its order: they split over concatenation, and a single row is kept exactly when its id is the sale's. So every matching catalogue row, a duplicate included, contributes one join row, in catalogue order. |
| Transform.JoinSale | src/transform.py:92-102 | For one sale, the left join emits one row per matching product (product fields from that product), or one row with null product fields when nothing matches. Sale fields come from the sale, and `total_sales` is `quantity * price_sale` on every row. |
| Transform.Mul | src/transform.py:102 | `quantity * price_sale` is NaN exactly when either operand is, otherwise the product, and it is non-negative for non-negative operands. |
| Transform.JoinAndEnrich | src/transform.py:92-102 | The join emits at least one row per sale, and every row has `total_sales == quantity * price_sale`. |
| Transform.JoinDistributes | src/transform.py:92-97 | The join distributes over concatenation of the sales, so it keeps sales order. |
| Transform.JoinRowsComeFromSales | src/transform.py:92-97 | Every enriched row carries the sale columns of some input sale. |
| Transform.JoinProductIds | src/transform.py:92-97 | The product ids of the enriched table are exactly the product ids of its sales. |
| Transform.Lookup | src/transform.py:92-97 | Finds the catalogue row with the given id, and finds nothing exactly when no row has it. |
| Transform.UniqueMatchesAtMostOne | src/transform.py:92-97 | With unique catalogue ids, a sale matches the looked-up product alone, or nothing. |
| Transform.JoinWithUniqueCatalogue | src/transform.py:92-97 | With unique catalogue ids there is one row per sale, in order. Row i has sale i's fields and the fields of the product with its id, or nulls. |
| Transform.JoinKeepsKeys | src/transform.py:92-97 | Enriching cleaned rows keeps a non-null product id and sale date on every row. |
| Transform.RunTransformation | src/transform.py:158-170 | The result is the enrichment of the cleaned sales. Every row has a non-null product id and sale date and a derived total. The product ids are those of the cleaned sales. With unique catalogue ids, the length is the cleaned length. |
| Quality.DecimalString | src/quality_checks.py:52 | A count renders as a non-empty string of decimal digits with no leading zero. |
| Quality.DecimalRoundTrip | src/quality_checks.py:52 | The count in a details text reads back exactly. |
| Quality.Count | src/quality_checks.py:46 | A masked count never exceeds the number of rows. |
| Quality.CountZeroIff | src/quality_checks.py:46-47 | A count is zero exactly when no row satisfies the mask. |
| Quality.CountAppend | src/quality_checks.py:46 | Counts add over concatenation. |
| Quality.InvalidProductIds | src/quality_checks.py:88-92 | The invalid ids are exactly the transformed ids absent from the catalogue. The set is empty exactly when the transformed ids are a subset of the catalogue's. |
| Quality.StatusOf | src/quality_checks.py:51 | The status is PASSED exactly when the check held. |
| Quality.MissingSaleIdsResult | src/quality_checks.py:43-57 | The record is named "Missing Sale IDs" and is PASSED exactly when no sale id is null. Its details report the null count. |
| Quality.NegativeValuesResult | src/quality_checks.py:63-79 | The record is named "Negative Values" and is PASSED exactly when no quantity and no sale price is negative. Its details report both counts. |
| Quality.ProductIdConsistencyResult | src/quality_checks.py:85-103 | The record is named "Product ID Consistency" and is PASSED exactly when the transformed ids are a subset of the catalogue's. Its details report the size of the set difference. |
| Quality.TotalSalesResult | src/quality_checks.py:109-129 | The record is named "Total Sales Calculation" and is PASSED exactly when no total is more than 0.01 from `quantity * price_sale`. Its details report the violation count. |
| Quality.PassedCount | src/quality_checks.py:177 | The passed count never exceeds the number of results. |
| Quality.PassedCountAppend | src/quality_checks.py:177 | Passed counts add over concatenation. |
| Quality.RunPassesAllIff | src/quality_checks.py:144-152 | All four records of a run are PASSED exactly when the verdict is true. |
| Quality.SummaryAfterRun | src/quality_checks.py:144-183 | A run grows the list by four and adds its own passed records to the passed count. After a fully passing run, the passed count grows by four. |
| Quality.DerivedTotalsAreCorrect | src/quality_checks.py:113-119 | A table whose totals are derived as enrichment derives them has no incorrect total. |
| Quality.TransformationPassesTotals | src/quality_checks.py:109-129 | The Transformer's output always passes the totals check. |
| Quality.TransformationConsistencyIff | src/quality_checks.py:85-103 | The Transformer's output passes the consistency check exactly when every complete sale names a catalogue product. |
| Quality.QualityChecker.constructor | src/quality_checks.py:24 | A new checker has an empty result list. |
| Quality.QualityChecker.CheckMissingSaleIds | src/quality_checks.py:43-57 | Returns true exactly when no sale id is null. Appends exactly its record, and earlier records are unchanged. |
| Quality.QualityChecker.CheckNegativeValues | src/quality_checks.py:63-79 | Returns true exactly when no quantity and no sale price is negative. Appends exactly its record. |
| Quality.QualityChecker.CheckProductIdConsistency | src/quality_checks.py:85-103 | Returns true exactly when the transformed ids are a subset of the catalogue's. Appends exactly its record. |
| Quality.QualityChecker.ValidateTotalSalesCalculation | src/quality_checks.py:109-129 | Returns true exactly when every total is within 0.01 of `quantity * price_sale`. Appends exactly its record. |
| Quality.QualityChecker.RunAllChecks | src/quality_checks.py:135-158 | Runs all four checks. Appends their records in the fixed order to the list, which is never cleared. Returns the conjunction of the four checks. |
| Quality.QualityChecker.GenerateSummary | src/quality_checks.py:164-183 | The loop's figures: total is the list length, passed is the number of PASSED records, and failed is total minus passed. |
| Warehouse.SchemaExtendsSnapshot | src/warehouse_load.py:46-150 | The table's 13 columns are the 11 snapshot columns in order, then `sale_year` and `sale_month`, so the INSERT column list matches. The primary key is `sale_id`. |
| Warehouse.LoadDataFromSilver | src/warehouse_load.py:100-123 | Loading succeeds exactly when every date parses, and a failure names the first bad row. On success the row count and every row are kept, and each row gains `sale_year`/`sale_month` equal to its date's year and month (1 ≤ month ≤ 12), or both null for a null date. |
| Warehouse.WithPartition | src/warehouse_load.py:112-116 | A row gains partition columns that agree with its date, and its snapshot columns are unchanged. |
| Warehouse.LoadedSales | src/warehouse_load.py:112-116 | The snapshot's rows come through loading unchanged and in order. |
| Warehouse.PrimaryKeyValid | src/warehouse_load.py:48 | Under the key, a sale id names at most one row of the table. |
| Warehouse.RowFitsIff | src/warehouse_load.py:47-61 | With its partition columns derived, a row's values fit the INTEGER and DECIMAL column types exactly when its snapshot values do. |
| Warehouse.AppendKeepsKeyIff | src/warehouse_load.py:134-153 | Appending keeps the primary key valid exactly when the batch's ids are non-null, pairwise distinct, and new to the table. |
| Warehouse.SalesWarehouse.constructor | src/warehouse_load.py:17 | A new database has no table, rows, indexes or views. |
| Warehouse.WarehouseLoader.constructor | src/warehouse_load.py:17 | A loader works on the database it was opened on. |
| Warehouse.WarehouseLoader.CreateTableSchema | src/warehouse_load.py:39-67 | Afterwards the table exists with the 13-column schema, zero rows and no indexes, whatever existed before. Views are unchanged. |
| Warehouse.WarehouseLoader.InsertData | src/warehouse_load.py:125-159 | The statement is accepted as a whole exactly when the table exists, every value fits its column type (INTEGER, DECIMAL(10,2), DECIMAL(12,2)) and the key stays valid. The rows become the old rows followed by the batch; on rejection nothing changes. |
| Warehouse.WarehouseLoader.CreateIndexes | src/warehouse_load.py:69-98 | When the table exists, the index set becomes the old set plus the four names. Rows, schema and views are unchanged. |
| Warehouse.WarehouseLoader.CreateIndexesTwice | src/warehouse_load.py:73-92 | A second call gives the same result and leaves the index set as the first call left it. |
| Warehouse.WarehouseLoader.CreateMaterializedViews | src/warehouse_load.py:161-197 | When the table exists, both view names are defined. The table is unchanged. |
| Warehouse.WarehouseLoader.RunWarehouseLoad | src/warehouse_load.py:199-228 | Schema, load, insert, indexes, views, in that order. Succeeds exactly when the snapshot loads under the key. Afterwards the table holds the loaded rows, the four indexes and both views, or is empty with no indexes when a step failed. |
| Warehouse.SuccessfulLoadContents | src/warehouse_load.py:112-150 | When the snapshot loads, the loaded rows carry the snapshot's rows in order, one each, and every row's partition columns agree with its date. |
| Warehouse.SnapshotLoadsIff | src/warehouse_load.py:100-153 | A load succeeds exactly when every date parses, every value fits its column type, and the sale ids are non-null and pairwise distinct. |
| Warehouse.LoadTwice | src/warehouse_load.py:199-228 | Two loads of the same snapshot leave the same verdict, rows and indexes. |
| Views.SqlSumInt | src/warehouse_load.py:171 | SUM is NULL exactly when every value is NULL. |
| Views.SqlSumReal | src/warehouse_load.py:172 | SUM is NULL exactly when every value is NULL. |
| Views.PresentCount | src/warehouse_load.py:173 | The count of non-NULL values is zero exactly when all values are NULL. |
| Views.SqlAvg | src/warehouse_load.py:173 | AVG is NULL exactly when all values are NULL. Otherwise it times the non-NULL count is the SUM. |
| Views.SqlSumIntAppend | src/warehouse_load.py:171 | SUM(quantity) splits over concatenation, with NULL as the identity, and a single value sums to itself. |
| Views.SqlSumRealAppend | src/warehouse_load.py:172 | SUM splits over concatenation, with NULL as the identity, and a single value sums to itself. |
| Views.GroupOf | src/warehouse_load.py:175 | A group holds exactly the rows with its key. |
| Views.GroupsPartitionRows | src/warehouse_load.py:175 | The groups of distinct keys that cover the table have sizes summing to the row count. |
| Views.MonthKeyLessTotal | src/warehouse_load.py:176 | ORDER BY year, month (NULL last) orders any two different keys. |
| Views.MonthKeyLessTransitive | src/warehouse_load.py:176 | The ORDER BY relation is transitive. |
| Views.InsertKey | src/warehouse_load.py:175-176 | Adding a key to a strictly ascending key list keeps it strictly ascending, with exactly the old keys and the new one. |
| Views.MonthKeys | src/warehouse_load.py:175-176 | The distinct (year, month) keys of the table, strictly ascending in ORDER BY order. |
| Views.MonthlyRowOf | src/warehouse_load.py:167-173 | A month's row carries its key and COUNT(*) of its group, positive when the table has that key. |
| Views.MonthlyRowsFor | src/warehouse_load.py:165-177 | Row i is the aggregate row of key i. |
| Views.MonthlySales | src/warehouse_load.py:165-177 | Every row of `monthly_sales` is the aggregate row of its own (year, month) and has at least one transaction. |
| Views.MonthlySalesOrdered | src/warehouse_load.py:176 | `monthly_sales` is strictly ascending by year then month, so no key repeats. |
| Views.MonthlySalesCoversTable | src/warehouse_load.py:175 | Every (year, month) of the table has its row, and every row has a non-empty group. |
| Views.MonthlySalesAggregates | src/warehouse_load.py:170-173 | Each row carries COUNT(*), SUM(quantity), SUM(total_sales) and AVG(total_sales) of its own group. |
| Views.MonthlyTransactionsAddUp | src/warehouse_load.py:170-175 | `total_transactions` sums to the table's row count. |
| Views.FirstAppearance | src/warehouse_load.py:189 | The distinct keys of the table, each once. |
| Views.CategoryRowOf | src/warehouse_load.py:182-187 | A category's row carries its category. |
| Views.InsertByRevenue | src/warehouse_load.py:190 | Insertion adds exactly one row to the multiset. |
| Views.InsertKeepsOrder | src/warehouse_load.py:190 | Insertion keeps the rows ordered by revenue, highest first, NULL last. |
| Views.SortByRevenue | src/warehouse_load.py:190 | The sort is ordered by revenue descending (NULL last) and is a permutation. |
| Views.CategoryPerformance | src/warehouse_load.py:180-191 | `category_performance` is ordered by revenue descending and is a permutation of the category groups. |
| Views.CategoryPerformanceDistinct | src/warehouse_load.py:189 | No category appears twice. |
| Views.CategoryPerformanceCoversTable | src/warehouse_load.py:189 | Every category of the table, NULL included, has its row. |
| Views.CategoryPerformanceOnlyTableCategories | src/warehouse_load.py:189 | Every row is the category of some sale. |
| Views.CategoryPerformanceAggregates | src/warehouse_load.py:183-187 | Each row carries its own group's aggregates. `total_products` is the number of distinct non-NULL product ids in the category. |
| Pipeline.RunStage | src/main_pipeline.py:62-124 | A stage wrapper reports true exactly when its component returned; an exception becomes false. |
| Pipeline.RunQualityChecks | src/main_pipeline.py:126-146 | Reports the gate's verdict when the checks return, and false when they raise. |
| Pipeline.FirstFailure | src/main_pipeline.py:171-194 | The position of the first failing stage, or 5. All earlier stages succeeded. |
| Pipeline.StagesRun | src/main_pipeline.py:171-194 | Stages run as a prefix of the fixed order. Without `stop_on_failure` all five run. With it, a stage runs exactly when it is at or before the first failure. |
| Pipeline.RunPipeline | src/main_pipeline.py:148-214 | The results map starts all false and has all five stages. A stage's entry is true exactly when it ran and succeeded. The stages that ran are `StagesRun`. The return value is true exactly when all five stages succeed. |
| Pipeline.ResultsAfterMeaning | src/main_pipeline.py:162-192 | After n stages, the map has every stage, and an entry is true exactly when its stage is among the first n and succeeded. |
| Pipeline.StopsAt | src/main_pipeline.py:173-214 | A stop at stage k means k is the first failure, the stages run match `StagesRun`, and the run does not succeed. |
| Pipeline.NothingRunsAfterFailure | src/main_pipeline.py:173-194 | With `stop_on_failure`, no stage after a failing one runs. |
| Pipeline.QualityNeverBlocksWarehouse | src/main_pipeline.py:186-194 | Whether the warehouse stage runs does not depend on the quality checks. |
| Pipeline.AllStagesRunIff | src/main_pipeline.py:171-194 | All five stages run exactly when the run does not stop on failure, or the first four stages succeed. |
| Pipeline.BothModesAgree | src/main_pipeline.py:201-214 | Both modes return the same verdict. |
| Scenarios.CleaningDropsSecondSale | src/transform.py:66-74 | Of two sales, the one without a product id is dropped, and `rows_removed` is 1. |
| Scenarios.EnrichmentYieldsOneRow | src/transform.py:158-170 | The remaining sale enriches to one row matched to its product, with `total_sales` 20. |
| Scenarios.DuplicateCatalogueRowJoinsTwice | src/transform.py:92-97 | A catalogue that lists the product twice makes the left join emit the sale twice. |
| Scenarios.FirstScenarioPassesGate | src/quality_checks.py:135-152 | That snapshot passes all four checks. |
| Scenarios.NegativeQuantityFailsOneCheck | src/quality_checks.py:63-79 | A quantity of -1 fails the negative-values check with counts 1 and 0, and the other checks hold. |
| Scenarios.UnknownProductFailsConsistency | src/quality_checks.py:85-103 | A row with an id missing from the catalogue fails consistency with one invalid id. |
| Scenarios.UnknownProductStillLoads | src/warehouse_load.py:199-228 | The same snapshot still loads into the warehouse. |

## Left out

- File I/O: reading the bronze JSON and the silver parquet (`read_bronze_data`, `load_data`, `pd.read_parquet`) and writing the snapshot (`save_to_silver`). Each operation takes the tables already in memory.
- Logging: every logger call and the log text are side effects with no behaviour to check.
- The DuckDB connection lifecycle: `duckdb.connect`, the `finally: conn.close()`, and `conn.register`/`unregister` of the temporary view. A loader is a handle on a database object; a second load uses a new loader on the same database.
- `check_table_schema` only logs DESCRIBE output.
- Floating point: pandas float64 arithmetic, the rounding of stored DECIMAL(10,2) and DECIMAL(12,2) values to cents, and floating AVG. Prices and totals are exact reals, and AVG is exact division. The insert's range check is modelled on the value rounded half away from zero (`Warehouse.DecimalFits`); how DuckDB rounds a float64 that lies within float error of a half cent is not.
- Integer width: the model treats the Transformer's int64 `quantity` as an unbounded integer (and its float64 product with `price_sale` as an exact real). The 32-bit range of the table's INTEGER columns is modelled as a rejection on insert.
- Date parsing: `pd.to_datetime` is modelled only as calendar validity on a `(year, month, day)` record. The pandas Timestamp range and string formats are out of scope.
- Timestamps: ingestion timestamps are opaque values that are only copied.
- Exceptions inside a component: the orchestrator takes each stage's outcome (returned, raised, or the gate's verdict) as an input. The components' own raising conditions modelled in the core are a missing join key, a missing projected column, an unparsable date, a value outside its column type, and a primary-key violation; other DuckDB failures (disk, locks, memory) are out of scope.
- Wall-clock duration and the failed-stage list in `run_pipeline`'s log message.
- `generate_pipeline_report` writes a file; `setup_directory_structure` creates directories.
- `src/data_generation.py`, `src/ingestion.py` and `AccessDW.py` are not part of this model. They are random data generation, a timestamped file copy, and an ad hoc query.
- Views.CategoryPerformance: DuckDB leaves the order of rows with equal revenue unspecified. The model sorts stably from first-appearance order, which is one of the allowed orders.
- Views.MonthlySales: its own contract states only that each row aggregates its key's group; its order, coverage and totals are stated by `MonthlySalesOrdered`, `MonthlySalesCoversTable` and `MonthlyTransactionsAddUp`.
- Transform.Select: pandas' KeyError lists every missing column; the model's error names one of them (the first, by `SelectFirstMissing`).
- Concurrency: readers observing the window between DROP and CREATE; the code is single-threaded.
