/**
 * Batch-mode configuration checks of BatchIdTableQuerier: at most one
 * timestamp column, exactly one of a timestamp or an incrementing column,
 * and no free-form query; the batch type follows from which column is set.
 */
module BatchConfig {
  import opened Wrappers

  /** The `ConnectException`s the validation throws, one per message constant. */
  datatype ConfigError =
    | MultipleTimestampColumns
    | EmptyTimestampColumn
    | NoTimestampOrIncrementingColumn
    | BothTimestampAndIncrementingColumns
    | QueryNotSupported

  /** `BATCH_TYPE_LONG` (incrementing watermark) or `BATCH_TYPE_TIMESTAMP`. */
  datatype BatchType = LongBatch | TimestampBatch

  /** The configuration keys the batch-mode validation reads. */
  datatype BatchSettings = BatchSettings(
    incrementingColumn: Option<string>,
    timestampColumns: Option<seq<Option<string>>>,
    query: Option<string>,
    preQuery: string,
    offsetsTableName: string,
    startOffset: string)

  /** The validated batch-mode settings of one table. */
  datatype BatchModeInfo = BatchModeInfo(
    preQuery: string,
    offsetsTableName: string,
    startOffset: string,
    tableOrQuery: string,
    timestampColumns: Option<seq<Option<string>>>,
    timestampColumn: Option<string>,
    incrementingColumn: Option<string>)

  predicate IsNullOrEmpty(s: Option<string>) { s.None? || s.value == [] }

  /** At most one timestamp column, and a named one when there is one. */
  function ValidateTimestampColumn(columns: Option<seq<Option<string>>>): (r: Result<Option<string>, ConfigError>)
    ensures r.Failure? <==>
      columns.Some? && (|columns.value| > 1 || (|columns.value| == 1 && IsNullOrEmpty(columns.value[0])))
    ensures r.Failure? ==>
      (r.error == MultipleTimestampColumns <==> |columns.value| > 1) &&
      (r.error == MultipleTimestampColumns || r.error == EmptyTimestampColumn)
    ensures r == Success(None) <==> columns.None? || columns.value == []
    ensures r.Success? && r.value.Some? ==> columns == Some([r.value]) && r.value.value != []
  {
    match columns
    case None => Success(None)
    case Some(cols) =>
      if |cols| > 1 then Failure(MultipleTimestampColumns)
      else if |cols| == 1 then
        if IsNullOrEmpty(cols[0]) then Failure(EmptyTimestampColumn)
        else assert cols == [cols[0]]; Success(cols[0])
      else Success(None)
  }

  /**
   * The checks in their order: the timestamp-column list, then neither
   * column, then both columns, then a free-form query.
   */
  function ValidateBatchModeConfig(s: BatchSettings): (r: Result<Option<string>, ConfigError>)
    ensures ValidateTimestampColumn(s.timestampColumns).Failure? ==>
      r == ValidateTimestampColumn(s.timestampColumns)
    ensures ValidateTimestampColumn(s.timestampColumns) == Success(None) && IsNullOrEmpty(s.incrementingColumn) ==>
      r == Failure(NoTimestampOrIncrementingColumn)
    ensures (ValidateTimestampColumn(s.timestampColumns).Success? &&
             ValidateTimestampColumn(s.timestampColumns).value.Some? && !IsNullOrEmpty(s.incrementingColumn)) ==>
      r == Failure(BothTimestampAndIncrementingColumns)
    ensures r.Success? <==>
      ValidateTimestampColumn(s.timestampColumns).Success? &&
      (ValidateTimestampColumn(s.timestampColumns).value.None? <==> !IsNullOrEmpty(s.incrementingColumn)) &&
      IsNullOrEmpty(s.query)
    ensures r.Success? ==>
      r == ValidateTimestampColumn(s.timestampColumns) &&
      (r.value.None? <==> !IsNullOrEmpty(s.incrementingColumn))
    ensures (ValidateTimestampColumn(s.timestampColumns).Success? &&
             (ValidateTimestampColumn(s.timestampColumns).value.None? <==> !IsNullOrEmpty(s.incrementingColumn)) &&
             !IsNullOrEmpty(s.query)) ==>
      r == Failure(QueryNotSupported)
    ensures r.Failure? && r.error == QueryNotSupported ==> !IsNullOrEmpty(s.query)
  {
    var noIncrementalColumn := IsNullOrEmpty(s.incrementingColumn);
    match ValidateTimestampColumn(s.timestampColumns)
    case Failure(e) => Failure(e)
    case Success(timestampColumn) =>
      if timestampColumn.None? && noIncrementalColumn then Failure(NoTimestampOrIncrementingColumn)
      else if !noIncrementalColumn && timestampColumn.Some? then Failure(BothTimestampAndIncrementingColumns)
      else if !IsNullOrEmpty(s.query) then Failure(QueryNotSupported)
      else Success(timestampColumn)
  }

  /** The `BatchModeInfo` constructor: validates, then keeps the incrementing column only without a timestamp column. */
  function NewBatchModeInfo(s: BatchSettings, tableOrQuery: string,
                            timestampColumns: Option<seq<Option<string>>>,
                            incrementingColumn: Option<string>): (r: Result<BatchModeInfo, ConfigError>)
    ensures r.Failure? <==> ValidateBatchModeConfig(s).Failure?
    ensures r.Failure? ==> r.error == ValidateBatchModeConfig(s).error
    ensures r.Success? ==>
      r.value.preQuery == s.preQuery && r.value.offsetsTableName == s.offsetsTableName &&
      r.value.startOffset == s.startOffset && r.value.tableOrQuery == tableOrQuery &&
      r.value.timestampColumns == timestampColumns && r.value.timestampColumn == ValidateBatchModeConfig(s).value
    ensures r.Success? ==> r.value.timestampColumn.None? || r.value.incrementingColumn.None?
    ensures r.Success? ==> r.value.timestampColumn.None? ==> r.value.incrementingColumn == incrementingColumn
  {
    match ValidateBatchModeConfig(s)
    case Failure(e) => Failure(e)
    case Success(timestampColumn) =>
      Success(BatchModeInfo(s.preQuery, s.offsetsTableName, s.startOffset, tableOrQuery,
                            timestampColumns, timestampColumn,
                            if timestampColumn.Some? then None else incrementingColumn))
  }

  /** `getBatchType`: LONG without a timestamp column, TIMESTAMP with one. */
  function GetBatchType(timestampColumn: Option<string>): (t: BatchType)
    ensures t == LongBatch <==> timestampColumn.None?
    ensures t == TimestampBatch <==> timestampColumn.Some?
  {
    if timestampColumn.None? then LongBatch else TimestampBatch
  }

  /**
   * When the constructor is given the columns of the same configuration it
   * validates (as the task does), exactly one column survives, and the batch
   * type is LONG exactly when it is the configured incrementing column.
   */
  lemma BatchTypeFollowsConfiguredColumn(s: BatchSettings, tableOrQuery: string)
    requires NewBatchModeInfo(s, tableOrQuery, s.timestampColumns, s.incrementingColumn).Success?
    ensures var info := NewBatchModeInfo(s, tableOrQuery, s.timestampColumns, s.incrementingColumn).value;
      && (info.timestampColumn.None? != info.incrementingColumn.None?)
      && (GetBatchType(info.timestampColumn) == LongBatch <==>
            info.incrementingColumn == s.incrementingColumn && !IsNullOrEmpty(s.incrementingColumn))
      && (GetBatchType(info.timestampColumn) == TimestampBatch <==>
            s.timestampColumns == Some([info.timestampColumn]) && !IsNullOrEmpty(info.timestampColumn))
  {
  }
}
