/** The warehouse loader: recreates the `sales_data` table, derives the
    year/month partition columns from `sale_date`, bulk-inserts the snapshot
    under the `sale_id` primary key, adds four indexes and defines two views. */
module Warehouse {
  import opened Common
  import opened Transform

  // ---------------------------------------------------------------------------
  // The table's schema
  // ---------------------------------------------------------------------------

  datatype SqlType = Varchar | DateType | Integer | Decimal(precision: nat, scale: nat) | TimestampType

  /** A column of `sales_data`: one of the 11 snapshot columns, or a partition column. */
  datatype TableColumn = SnapshotColumn(column: Column) | SaleYearColumn | SaleMonthColumn

  datatype ColumnDef = ColumnDef(column: TableColumn, sqlType: SqlType)

  /** The 13 columns of `sales_data`, in declaration order; the first is the primary key. */
  const SalesDataSchema: seq<ColumnDef> := [
    ColumnDef(SnapshotColumn(Plain(SaleIdName)), Varchar),
    ColumnDef(SnapshotColumn(Plain(ProductIdName)), Varchar),
    ColumnDef(SnapshotColumn(Plain(SaleDateName)), DateType),
    ColumnDef(SnapshotColumn(Plain(QuantityName)), Integer),
    ColumnDef(SnapshotColumn(Suffixed(PriceName, SaleSide)), Decimal(10, 2)),
    ColumnDef(SnapshotColumn(Suffixed(PriceName, ProductSide)), Decimal(10, 2)),
    ColumnDef(SnapshotColumn(Plain(ProductNameName)), Varchar),
    ColumnDef(SnapshotColumn(Plain(CategoryName)), Varchar),
    ColumnDef(SnapshotColumn(Plain(TotalSalesName)), Decimal(12, 2)),
    ColumnDef(SnapshotColumn(Suffixed(IngestionTimestampName, SaleSide)), TimestampType),
    ColumnDef(SnapshotColumn(Suffixed(IngestionTimestampName, ProductSide)), TimestampType),
    ColumnDef(SaleYearColumn, Integer),
    ColumnDef(SaleMonthColumn, Integer)]

  const PrimaryKey: TableColumn := SnapshotColumn(Plain(SaleIdName))

  function ColumnsOf(defs: seq<ColumnDef>): (cs: seq<TableColumn>)
    ensures |cs| == |defs|
    ensures forall i :: 0 <= i < |defs| ==> cs[i] == defs[i].column
  {
    seq(|defs|, i requires 0 <= i < |defs| => defs[i].column)
  }

  function AsTableColumns(cs: seq<Column>): (r: seq<TableColumn>)
    ensures |r| == |cs|
    ensures forall i :: 0 <= i < |cs| ==> r[i] == SnapshotColumn(cs[i])
  {
    seq(|cs|, i requires 0 <= i < |cs| => SnapshotColumn(cs[i]))
  }

  /** The table's columns are the snapshot's 11 columns in snapshot order followed by
      the two partition columns, so the INSERT's column list and its SELECT list line up;
      the primary key is the first column. */
  lemma SchemaExtendsSnapshot()
    ensures ColumnsOf(SalesDataSchema) == AsTableColumns(EnrichedColumns) + [SaleYearColumn, SaleMonthColumn]
    ensures |SalesDataSchema| == 13 && SalesDataSchema[0].column == PrimaryKey
  {
    var l := ColumnsOf(SalesDataSchema);
    var r := AsTableColumns(EnrichedColumns) + [SaleYearColumn, SaleMonthColumn];
    var e := EnrichedColumns;
    var d := SalesDataSchema;
    assert l[0] == r[0];
    assert l[1] == r[1];
    assert l[2] == r[2];
    assert l[3] == r[3];
    assert l[4] == r[4];
    assert l[5] == r[5];
    assert l[6] == r[6];
    assert l[7] == r[7];
    assert l[8] == r[8];
    assert l[9] == r[9];
    assert l[10] == r[10];
    assert l[11] == r[11] && l[12] == r[12];
  }

  // ---------------------------------------------------------------------------
  // Loading the snapshot: the partition columns
  // ---------------------------------------------------------------------------

  /** A row of `sales_data`: an enriched sale plus its partition columns. */
  datatype WarehouseRow = WarehouseRow(sale: EnrichedSale, saleYear: Option<int>, saleMonth: Option<int>)

  /** `pd.to_datetime` raised on the date of this row. */
  datatype LoadError = InvalidSaleDate(row: nat)

  /** A null date converts to NaT; a present one must be a calendar date. */
  predicate DateParses(d: Option<Date>)
  {
    d.None? || ValidDate(d.value)
  }

  /** The partition columns agree with the row's date: both null for a null date,
      otherwise its year and its month, the month within 1..12. */
  predicate PartitionAgrees(w: WarehouseRow)
  {
    match w.sale.saleDate
    case None => w.saleYear.None? && w.saleMonth.None?
    case Some(d) => w.saleYear == Some(d.year) && w.saleMonth == Some(d.month) && 1 <= d.month <= 12
  }

  function WithPartition(r: EnrichedSale): (w: WarehouseRow)
    requires DateParses(r.saleDate)
    ensures w.sale == r && PartitionAgrees(w)
  {
    match r.saleDate
    case None => WarehouseRow(r, None, None)
    case Some(d) => WarehouseRow(r, Some(d.year), Some(d.month))
  }

  /** `load_data_from_silver` on a snapshot already read: each row gains its
      partition columns; the first unparsable date raises. */
  function LoadDataFromSilver(snapshot: seq<EnrichedSale>): (r: Result<seq<WarehouseRow>, LoadError>)
    ensures r.Success? <==> forall i :: 0 <= i < |snapshot| ==> DateParses(snapshot[i].saleDate)
    ensures r.Failure? ==> r.error.row < |snapshot| && !DateParses(snapshot[r.error.row].saleDate)
    ensures r.Failure? ==> forall i :: 0 <= i < r.error.row ==> DateParses(snapshot[i].saleDate)
    ensures r.Success? ==> |r.value| == |snapshot|
    ensures r.Success? ==> forall i :: 0 <= i < |snapshot| ==> r.value[i].sale == snapshot[i] && PartitionAgrees(r.value[i])
  {
    if snapshot == [] then Success([])
    else if !DateParses(snapshot[0].saleDate) then Failure(InvalidSaleDate(0))
    else
      match LoadDataFromSilver(snapshot[1..])
      case Failure(e) => Failure(InvalidSaleDate(e.row + 1))
      case Success(rest) => Success([WithPartition(snapshot[0])] + rest)
  }

  /** The snapshot's rows survive loading unchanged, in order. */
  lemma LoadedSales(snapshot: seq<EnrichedSale>)
    requires LoadDataFromSilver(snapshot).Success?
    ensures SalesOf(LoadDataFromSilver(snapshot).value) == snapshot
  {
    var rows := LoadDataFromSilver(snapshot).value;
    assert SalesOf(rows) == snapshot by {
      assert |SalesOf(rows)| == |snapshot|;
      forall i | 0 <= i < |snapshot| ensures SalesOf(rows)[i] == snapshot[i] { }
    }
  }

  function SalesOf(rows: seq<WarehouseRow>): (r: seq<EnrichedSale>)
    ensures |r| == |rows|
    ensures forall i :: 0 <= i < |rows| ==> r[i] == rows[i].sale
  {
    if rows == [] then [] else [rows[0].sale] + SalesOf(rows[1..])
  }

  // ---------------------------------------------------------------------------
  // The primary key
  // ---------------------------------------------------------------------------

  /** `sale_id` is non-null and unique over the table, so a sale id names at most one row. */
  predicate PrimaryKeyValid(rows: seq<WarehouseRow>)
    ensures PrimaryKeyValid(rows) ==>
      forall i, j :: 0 <= i < |rows| && 0 <= j < |rows| && rows[i].sale.saleId == rows[j].sale.saleId ==> i == j
  {
    (forall i :: 0 <= i < |rows| ==> rows[i].sale.saleId.Some?)
    && (forall i, j :: 0 <= i < j < |rows| ==> rows[i].sale.saleId != rows[j].sale.saleId)
  }

  /** Appending a batch keeps the key valid exactly when the batch's ids are present,
      distinct, and new to the table. */
  lemma AppendKeepsKeyIff(old_: seq<WarehouseRow>, batch: seq<WarehouseRow>)
    requires PrimaryKeyValid(old_)
    ensures PrimaryKeyValid(old_ + batch) <==>
      PrimaryKeyValid(batch) && forall i, j :: 0 <= i < |old_| && 0 <= j < |batch| ==> old_[i].sale.saleId != batch[j].sale.saleId
  {
    var all := old_ + batch;
    if PrimaryKeyValid(all) {
      forall i, j | 0 <= i < j < |batch| ensures batch[i].sale.saleId != batch[j].sale.saleId {
        assert all[|old_| + i] == batch[i] && all[|old_| + j] == batch[j];
      }
      forall i | 0 <= i < |batch| ensures batch[i].sale.saleId.Some? {
        assert all[|old_| + i] == batch[i];
      }
      forall i, j | 0 <= i < |old_| && 0 <= j < |batch| ensures old_[i].sale.saleId != batch[j].sale.saleId {
        assert all[i] == old_[i] && all[|old_| + j] == batch[j];
      }
    }
  }

  // ---------------------------------------------------------------------------
  // The column types: values the INSERT can store
  // ---------------------------------------------------------------------------

  /** INTEGER is a signed 32-bit column. */
  predicate IntegerFits(x: Option<int>)
  {
    x.None? || -0x8000_0000 <= x.value < 0x8000_0000
  }

  /** DECIMAL(precision, 2) holds the value rounded to cents, half away from zero,
      when that has at most `precision - 2` integer digits: `limit` is the bound
      for the unrounded value, 99999999.995 for DECIMAL(10,2). */
  predicate DecimalFits(x: Option<real>, limit: real)
  {
    x.None? || -limit < x.value < limit
  }

  const Decimal10Limit: real := 99999999.995
  const Decimal12Limit: real := 9999999999.995

  /** Every value of the row fits the type of its column in the DDL: `quantity`,
      `sale_year` and `sale_month` INTEGER, the two prices DECIMAL(10,2), and
      `total_sales` DECIMAL(12,2). */
  predicate RowFits(w: WarehouseRow)
  {
    && IntegerFits(w.sale.quantity) && IntegerFits(w.saleYear) && IntegerFits(w.saleMonth)
    && DecimalFits(w.sale.priceSale, Decimal10Limit) && DecimalFits(w.sale.priceProduct, Decimal10Limit)
    && DecimalFits(w.sale.totalSales, Decimal12Limit)
  }

  /** The same condition on a snapshot row, whose `sale_year` is its date's year. */
  predicate SnapshotRowFits(e: EnrichedSale)
  {
    && IntegerFits(e.quantity) && (e.saleDate.Some? ==> IntegerFits(Some(e.saleDate.value.year)))
    && DecimalFits(e.priceSale, Decimal10Limit) && DecimalFits(e.priceProduct, Decimal10Limit)
    && DecimalFits(e.totalSales, Decimal12Limit)
  }

  /** With its partition columns in place, a row fits exactly when its snapshot part does. */
  lemma RowFitsIff(w: WarehouseRow)
    requires PartitionAgrees(w)
    ensures RowFits(w) <==> SnapshotRowFits(w.sale)
  {
  }

  // ---------------------------------------------------------------------------
  // The database and the loader
  // ---------------------------------------------------------------------------

  const IndexNames: set<string> := {"idx_sale_date", "idx_product_id", "idx_category", "idx_time_partition"}

  const ViewNames: set<string> := {"monthly_sales", "category_performance"}

  /** The warehouse database file: the `sales_data` table (if it exists) with its
      schema, rows and indexes, and the names of the views defined over it. */
  class SalesWarehouse {
    var tableExists: bool
    var schema: seq<ColumnDef>
    var rows: seq<WarehouseRow>
    var indexes: set<string>
    var views: set<string>

    /** What the database always guarantees: no rows or indexes without the table,
        and the primary key holds. */
    predicate Valid()
      reads this
    {
      (tableExists || (rows == [] && indexes == {})) && PrimaryKeyValid(rows)
    }

    /** A database opened for the first time. */
    constructor ()
      ensures Valid()
      ensures !tableExists && schema == [] && rows == [] && indexes == {} && views == {}
    {
      tableExists, schema, rows, indexes, views := false, [], [], {}, {};
    }
  }

  class WarehouseLoader {
    /** The connection's database. */
    const db: SalesWarehouse

    constructor (db: SalesWarehouse)
      ensures this.db == db
    {
      this.db := db;
    }

    /** DROP TABLE IF EXISTS, then CREATE TABLE: an empty 13-column table whatever
        existed before; dropping the table drops its indexes, not the views. */
    method CreateTableSchema()
      modifies db
      ensures db.Valid()
      ensures db.tableExists && db.schema == SalesDataSchema && db.rows == [] && db.indexes == {}
      ensures db.views == old(db.views)
    {
      db.tableExists, db.rows, db.indexes := false, [], {};
      db.tableExists, db.schema := true, SalesDataSchema;
    }

    /** INSERT ... SELECT of the whole batch, one statement: rejected (and nothing
        inserted) when there is no table, when a value does not fit its column's type,
        or when the key would break; otherwise the batch is appended. */
    method InsertData(batch: seq<WarehouseRow>) returns (ok: bool)
      requires db.Valid()
      modifies db
      ensures db.Valid()
      ensures ok <==> old(db.tableExists) && (forall i :: 0 <= i < |batch| ==> RowFits(batch[i]))
                      && PrimaryKeyValid(old(db.rows) + batch)
      ensures db.rows == if ok then old(db.rows) + batch else old(db.rows)
      ensures db.tableExists == old(db.tableExists) && db.schema == old(db.schema)
      ensures db.indexes == old(db.indexes) && db.views == old(db.views)
    {
      if !db.tableExists || !(forall i :: 0 <= i < |batch| ==> RowFits(batch[i])) || !PrimaryKeyValid(db.rows + batch) {
        return false;
      }
      db.rows := db.rows + batch;
      ok := true;
    }

    /** The four CREATE INDEX IF NOT EXISTS statements: each adds its name unless present. */
    method CreateIndexes() returns (ok: bool)
      requires db.Valid()
      modifies db
      ensures db.Valid()
      ensures ok <==> old(db.tableExists)
      ensures db.indexes == if ok then old(db.indexes) + IndexNames else old(db.indexes)
      ensures db.tableExists == old(db.tableExists) && db.schema == old(db.schema)
      ensures db.rows == old(db.rows) && db.views == old(db.views)
    {
      if !db.tableExists {
        return false;
      }
      db.indexes := db.indexes + {"idx_sale_date"};
      db.indexes := db.indexes + {"idx_product_id"};
      db.indexes := db.indexes + {"idx_category"};
      db.indexes := db.indexes + {"idx_time_partition"};
      ok := true;
    }

    /** `create_indexes` is idempotent: a second call reports the same and changes nothing. */
    method CreateIndexesTwice() returns (first: bool, second: bool)
      requires db.Valid()
      modifies db
      ensures first == second
      ensures db.indexes == if first then old(db.indexes) + IndexNames else old(db.indexes)
      ensures db.rows == old(db.rows) && db.tableExists == old(db.tableExists)
    {
      first := CreateIndexes();
      ghost var once := db.indexes;
      second := CreateIndexes();
      assert db.indexes == once;
    }

    /** The two CREATE OR REPLACE VIEW statements; they bind against `sales_data`. */
    method CreateMaterializedViews() returns (ok: bool)
      modifies db
      ensures ok <==> old(db.tableExists)
      ensures db.views == if ok then old(db.views) + ViewNames else old(db.views)
      ensures db.tableExists == old(db.tableExists) && db.schema == old(db.schema)
      ensures db.rows == old(db.rows) && db.indexes == old(db.indexes)
    {
      if !db.tableExists {
        return false;
      }
      db.views := db.views + ViewNames;
      ok := true;
    }

    /** `run_warehouse_load` on a snapshot already read: schema, load, insert, indexes,
        views, in that order; a failing step raises and the later ones do not run. */
    method RunWarehouseLoad(snapshot: seq<EnrichedSale>) returns (ok: bool)
      requires db.Valid()
      modifies db
      ensures db.Valid()
      ensures ok <==> SnapshotLoads(snapshot)
      ensures db.tableExists && db.schema == SalesDataSchema
      ensures db.rows == if ok then LoadDataFromSilver(snapshot).value else []
      ensures db.indexes == if ok then IndexNames else {}
      ensures db.views == if ok then old(db.views) + ViewNames else old(db.views)
    {
      CreateTableSchema();
      var loaded := LoadDataFromSilver(snapshot);
      if loaded.Failure? {
        return false;
      }
      assert [] + loaded.value == loaded.value;
      var inserted := InsertData(loaded.value);
      if !inserted {
        return false;
      }
      var indexed := CreateIndexes();
      var viewed := CreateMaterializedViews();
      ok := true;
    }
  }

  /** The load succeeds: every date parses, every value fits its column, and the
      snapshot's sale ids form a valid key. */
  predicate SnapshotLoads(snapshot: seq<EnrichedSale>)
  {
    var loaded := LoadDataFromSilver(snapshot);
    loaded.Success? && (forall i :: 0 <= i < |loaded.value| ==> RowFits(loaded.value[i]))
    && PrimaryKeyValid(loaded.value)
  }

  /** A successful load leaves exactly the snapshot's rows, in order, each with its
      partition columns; so the table's row count is the snapshot's. */
  lemma SuccessfulLoadContents(snapshot: seq<EnrichedSale>)
    requires SnapshotLoads(snapshot)
    ensures |LoadDataFromSilver(snapshot).value| == |snapshot|
    ensures SalesOf(LoadDataFromSilver(snapshot).value) == snapshot
    ensures forall w :: w in LoadDataFromSilver(snapshot).value ==> PartitionAgrees(w)
  {
    LoadedSales(snapshot);
  }

  /** The load succeeds exactly when the dates parse, the values fit their columns,
      and the snapshot's sale ids are present and pairwise distinct. */
  lemma SnapshotLoadsIff(snapshot: seq<EnrichedSale>)
    ensures SnapshotLoads(snapshot) <==>
      (forall i :: 0 <= i < |snapshot| ==> DateParses(snapshot[i].saleDate))
      && (forall i :: 0 <= i < |snapshot| ==> SnapshotRowFits(snapshot[i]))
      && (forall i :: 0 <= i < |snapshot| ==> snapshot[i].saleId.Some?)
      && (forall i, j :: 0 <= i < j < |snapshot| ==> snapshot[i].saleId != snapshot[j].saleId)
  {
    var loaded := LoadDataFromSilver(snapshot);
    if loaded.Success? {
      assert forall i :: 0 <= i < |snapshot| ==> loaded.value[i].sale.saleId == snapshot[i].saleId;
      forall i | 0 <= i < |snapshot| ensures RowFits(loaded.value[i]) <==> SnapshotRowFits(snapshot[i]) {
        RowFitsIff(loaded.value[i]);
      }
    }
  }

  /** Two loads from the same snapshot, each through its own connection to the same
      database, leave the same table and the same indexes: the second drops and
      recreates what the first built. */
  method LoadTwice(db: SalesWarehouse, snapshot: seq<EnrichedSale>)
    returns (firstOk: bool, secondOk: bool, firstRows: seq<WarehouseRow>, secondRows: seq<WarehouseRow>,
             firstIndexes: set<string>, secondIndexes: set<string>)
    requires db.Valid()
    modifies db
    ensures firstOk == secondOk && firstRows == secondRows && firstIndexes == secondIndexes
    ensures secondRows == db.rows && secondIndexes == db.indexes
  {
    var loader := new WarehouseLoader(db);
    firstOk := loader.RunWarehouseLoad(snapshot);
    firstRows, firstIndexes := db.rows, db.indexes;
    var again := new WarehouseLoader(db);
    secondOk := again.RunWarehouseLoad(snapshot);
    secondRows, secondIndexes := db.rows, db.indexes;
  }
}
