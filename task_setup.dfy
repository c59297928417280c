/**
 * What JdbcSourceTask.start decides before the poll loop runs: tables XOR
 * query, the query mode, the stored offset of each source (newest offset
 * protocol first), the NOT NULL check of the offset columns, and which
 * querier each mode builds.
 */
module TaskSetup {
  import opened Wrappers
  import opened Text
  import opened BatchConfig

  datatype Mode = Bulk | Incrementing | Timestamp | TimestampIncrementing | BatchId

  datatype QueryMode = Table | Query

  /** The partition keys stored offsets may be filed under. */
  datatype Partition = ProtocolV1(table: string) | ProtocolV0(table: string) | QueryPartition

  /** A stored offset, as the offset storage returns it. */
  type StoredOffset = map<string, int>

  datatype ColumnDefinition = ColumnDefinition(name: string, optional: bool)

  /** The column definitions the dialect describes for a table, or the SQLException it throws. */
  datatype Columns = Described(definitions: seq<ColumnDefinition>) | DescribeFailed

  /** The `ConnectException`s that abort `start`. */
  datatype StartError =
    | TablesXorQuery
    | IncrementingColumnNullable(table: string)
    | TimestampColumnsNullable(table: string)
    | NullabilityCheckFailed(table: string)
    | BatchModeConfig(error: ConfigError)

  /** The task configuration keys `start` reads. */
  datatype TaskConfig = TaskConfig(
    tables: seq<string>,
    query: string,
    mode: Mode,
    incrementingColumn: string,
    timestampColumns: seq<string>,
    validateNonNulls: bool,
    pollInterval: int,
    batchMaxRows: int,
    preQuery: string,
    offsetsTableName: string,
    startOffset: string)

  /** The querier `start` creates for one table or query. */
  datatype QuerierConfig =
    | BulkQuerier(source: string, queryMode: QueryMode)
    | TimestampIncrementingQuerier(source: string, queryMode: QueryMode,
                                   timestampColumns: Option<seq<string>>,
                                   incrementingColumn: Option<string>,
                                   offset: Option<StoredOffset>)
    | BatchIdQuerier(source: string, queryMode: QueryMode, info: BatchModeInfo,
                     offset: Option<StoredOffset>)

  // -----------------------------------------------------------------------
  // Sources and query mode
  // -----------------------------------------------------------------------

  /** Exactly one of a non-empty table list and a non-empty query; QUERY mode iterates `[query]`, TABLE mode the tables. */
  function SelectSources(cfg: TaskConfig): (r: Result<(QueryMode, seq<string>), StartError>)
    ensures r.Failure? <==> (|cfg.tables| == 0) == (|cfg.query| == 0)
    ensures r.Failure? ==> r.error == TablesXorQuery
    ensures r.Success? ==> |r.value.1| >= 1
    ensures r.Success? ==> (r.value.0 == Query <==> |cfg.query| > 0)
    ensures r.Success? && r.value.0 == Query ==> r.value.1 == [cfg.query] && cfg.tables == []
    ensures r.Success? && r.value.0 == Table ==> r.value.1 == cfg.tables && cfg.query == []
  {
    if (|cfg.tables| == 0 && |cfg.query| == 0) || (|cfg.tables| != 0 && |cfg.query| != 0) then
      Failure(TablesXorQuery)
    else
      var queryMode := if |cfg.query| != 0 then Query else Table;
      Success((queryMode, if queryMode == Query then [cfg.query] else cfg.tables))
  }

  // -----------------------------------------------------------------------
  // Stored offsets
  // -----------------------------------------------------------------------

  /** Stored offsets are read for the incrementing and timestamp modes only. */
  predicate UsesStoredOffsets(mode: Mode)
  {
    mode == Incrementing || mode == Timestamp || mode == TimestampIncrementing
  }

  /** `possibleTablePartitions`: the protocol V1 key first, then V0. */
  function PossibleTablePartitions(table: string): (r: seq<Partition>)
    ensures |r| == 2 && r[0] == ProtocolV1(table)
    ensures forall p :: p in r <==> p == ProtocolV1(table) || p == ProtocolV0(table)
  {
    [ProtocolV1(table), ProtocolV0(table)]
  }

  /** The partitions whose offsets a source may be stored under. */
  function CandidatePartitions(queryMode: QueryMode, source: string): seq<Partition>
  {
    if queryMode == Table then PossibleTablePartitions(source) else [QueryPartition]
  }

  /** All partitions `start` asks the offset storage for. */
  function RequestedPartitions(queryMode: QueryMode, tables: seq<string>): seq<Partition>
  {
    if queryMode == Query then [QueryPartition]
    else if tables == [] then []
    else RequestedPartitions(queryMode, tables[..|tables| - 1]) + PossibleTablePartitions(tables[|tables| - 1])
  }

  /** What the offset storage answers for a list of partitions. */
  function ReadOffsets(stored: map<Partition, StoredOffset>, partitions: seq<Partition>): map<Partition, StoredOffset>
  {
    map p | p in stored && p in partitions :: stored[p]
  }

  /** The offset of the first candidate that has one. */
  function FirstStored(candidates: seq<Partition>, offsets: map<Partition, StoredOffset>): Option<StoredOffset>
  {
    if candidates == [] then None
    else if candidates[0] in offsets then Some(offsets[candidates[0]])
    else FirstStored(candidates[1..], offsets)
  }

  /** The candidate loop of `start`: stops at the first partition with an offset. */
  method FindOffset(candidates: seq<Partition>, offsets: map<Partition, StoredOffset>)
    returns (offset: Option<StoredOffset>)
    ensures offset == FirstStored(candidates, offsets)
    ensures offset.None? <==> forall i :: 0 <= i < |candidates| ==> candidates[i] !in offsets
    ensures offset.Some? ==>
      exists i :: (0 <= i < |candidates| && candidates[i] in offsets &&
                   offset.value == offsets[candidates[i]] && forall j :: 0 <= j < i ==> candidates[j] !in offsets)
  {
    offset := None;
    var i := 0;
    while i < |candidates|
      invariant 0 <= i <= |candidates|
      invariant forall j :: 0 <= j < i ==> candidates[j] !in offsets
      invariant FirstStored(candidates, offsets) == FirstStored(candidates[i..], offsets)
    {
      assert candidates[i..][1..] == candidates[i + 1..];
      if candidates[i] in offsets {
        offset := Some(offsets[candidates[i]]);
        return;
      }
      i := i + 1;
    }
  }

  /**
   * For a table in an offset-reading mode, the offset stored under the V1
   * key wins, the V0 key is the fallback, and without either there is none.
   */
  lemma TableOffsetPrefersNewestProtocol(stored: map<Partition, StoredOffset>, tables: seq<string>, k: int)
    requires 0 <= k < |tables|
    ensures var offsets := ReadOffsets(stored, RequestedPartitions(Table, tables));
      FirstStored(CandidatePartitions(Table, tables[k]), offsets) ==
        if ProtocolV1(tables[k]) in stored then Some(stored[ProtocolV1(tables[k])])
        else if ProtocolV0(tables[k]) in stored then Some(stored[ProtocolV0(tables[k])])
        else None
  {
    RequestedContainsTable(tables, k);
    var offsets := ReadOffsets(stored, RequestedPartitions(Table, tables));
    var v1, v0 := ProtocolV1(tables[k]), ProtocolV0(tables[k]);
    var c := CandidatePartitions(Table, tables[k]);
    assert c == [v1, v0] && c[1..] == [v0] && c[1..][1..] == [];
    assert v1 in offsets <==> v1 in stored;
    assert v0 in offsets <==> v0 in stored;
    assert FirstStored(c[1..], offsets) == if v0 in offsets then Some(offsets[v0]) else FirstStored(c[1..][1..], offsets);
  }

  lemma {:induction false} RequestedContainsTable(tables: seq<string>, k: int)
    requires 0 <= k < |tables|
    ensures ProtocolV1(tables[k]) in RequestedPartitions(Table, tables)
    ensures ProtocolV0(tables[k]) in RequestedPartitions(Table, tables)
    decreases |tables|
  {
    if k < |tables| - 1 {
      RequestedContainsTable(tables[..|tables| - 1], k);
    }
  }

  // -----------------------------------------------------------------------
  // validateNonNullable
  // -----------------------------------------------------------------------

  function LoweredColumns(columns: seq<string>): set<string>
  {
    set i | 0 <= i < |columns| :: Lower(columns[i])
  }

  predicate MatchesIncrementing(d: ColumnDefinition, incrementingColumn: string)
  {
    EqualsIgnoreCase(d.name, incrementingColumn)
  }

  /** The incrementing column is nullable when the last definition with its name says so. */
  ghost predicate IncrementingOptional(defs: seq<ColumnDefinition>, incrementingColumn: string)
  {
    exists i :: 0 <= i < |defs| && MatchesIncrementing(defs[i], incrementingColumn) && defs[i].optional &&
      forall j :: i < j < |defs| ==> !MatchesIncrementing(defs[j], incrementingColumn)
  }

  /** Some timestamp column (that is not also the incrementing column) is NOT NULL. */
  ghost predicate SomeTimestampRequired(defs: seq<ColumnDefinition>, incrementingColumn: string,
                                        timestampColumns: seq<string>)
  {
    exists i :: 0 <= i < |defs| && !MatchesIncrementing(defs[i], incrementingColumn) &&
      Lower(defs[i].name) in LoweredColumns(timestampColumns) && !defs[i].optional
  }

  /** The decision after the columns are known. */
  function NullabilityDecision(mode: Mode, table: string, incrementingOptional: bool, timestampRequired: bool)
    : (r: Option<StartError>)
    ensures r.None? <==>
      ((mode == Incrementing || mode == TimestampIncrementing) ==> !incrementingOptional) &&
      ((mode == Timestamp || mode == TimestampIncrementing) ==> timestampRequired)
    ensures r.Some? ==> r.value == IncrementingColumnNullable(table) || r.value == TimestampColumnsNullable(table)
    ensures r.Some? && r.value == TimestampColumnsNullable(table) ==> !incrementingOptional || mode == Timestamp
  {
    if (mode == Incrementing || mode == TimestampIncrementing) && incrementingOptional then
      Some(IncrementingColumnNullable(table))
    else if (mode == Timestamp || mode == TimestampIncrementing) && !timestampRequired then
      Some(TimestampColumnsNullable(table))
    else None
  }

  ghost function NullabilityCheck(mode: Mode, table: string, incrementingColumn: string,
                                  timestampColumns: seq<string>, columns: Columns): Option<StartError>
  {
    match columns
    case DescribeFailed => Some(NullabilityCheckFailed(table))
    case Described(defs) =>
      NullabilityDecision(mode, table, IncrementingOptional(defs, incrementingColumn),
                          SomeTimestampRequired(defs, incrementingColumn, timestampColumns))
  }

  /** `validateNonNullable`: the scan over the column definitions, then the decision. */
  method ValidateNonNullable(mode: Mode, table: string, incrementingColumn: string,
                             timestampColumns: seq<string>, columns: Columns)
    returns (err: Option<StartError>)
    ensures err == NullabilityCheck(mode, table, incrementingColumn, timestampColumns, columns)
  {
    var lowercaseTsColumns: set<string> := {};
    for i := 0 to |timestampColumns|
      invariant lowercaseTsColumns == LoweredColumns(timestampColumns[..i])
    {
      assert timestampColumns[..i + 1] == timestampColumns[..i] + [timestampColumns[i]];
      lowercaseTsColumns := lowercaseTsColumns + {Lower(timestampColumns[i])};
    }
    assert timestampColumns[..|timestampColumns|] == timestampColumns;
    if columns.DescribeFailed? {
      return Some(NullabilityCheckFailed(table));
    }
    var defs := columns.definitions;
    var incrementingOptional := false;
    var atLeastOneTimestampNotOptional := false;
    for i := 0 to |defs|
      invariant incrementingOptional == IncrementingOptional(defs[..i], incrementingColumn)
      invariant atLeastOneTimestampNotOptional ==
        SomeTimestampRequired(defs[..i], incrementingColumn, timestampColumns)
    {
      var defn := defs[i];
      assert defs[..i + 1] == defs[..i] + [defn];
      if EqualsIgnoreCase(defn.name, incrementingColumn) {
        incrementingOptional := defn.optional;
        if defn.optional {
          assert MatchesIncrementing(defs[..i + 1][i], incrementingColumn);
        }
      } else if Lower(defn.name) in lowercaseTsColumns {
        if !defn.optional {
          atLeastOneTimestampNotOptional := true;
          assert defs[..i + 1][i] == defn;
        }
      }
    }
    assert defs[..|defs|] == defs;
    err := NullabilityDecision(mode, table, incrementingOptional, atLeastOneTimestampNotOptional);
  }

  // -----------------------------------------------------------------------
  // The querier for each mode
  // -----------------------------------------------------------------------

  /** The batch-mode keys of the task configuration, as the batch validation reads them. */
  function BatchSettingsOf(cfg: TaskConfig): BatchSettings
  {
    BatchSettings(Some(cfg.incrementingColumn), Some(seq(|cfg.timestampColumns|, i requires 0 <= i < |cfg.timestampColumns| => Some(cfg.timestampColumns[i]))),
                  Some(cfg.query), cfg.preQuery, cfg.offsetsTableName, cfg.startOffset)
  }

  /** The mode dispatch at the end of `start`'s loop. */
  function MakeQuerier(cfg: TaskConfig, queryMode: QueryMode, source: string, offset: Option<StoredOffset>)
    : (r: Result<QuerierConfig, StartError>)
    ensures r.Failure? ==> cfg.mode == BatchId && r.error.BatchModeConfig?
    ensures cfg.mode == BatchId ==> (r.Failure? <==> ValidateBatchModeConfig(BatchSettingsOf(cfg)).Failure?)
    ensures r.Failure? ==> r.error == BatchModeConfig(ValidateBatchModeConfig(BatchSettingsOf(cfg)).error)
    ensures r.Success? ==> r.value.source == source && r.value.queryMode == queryMode
    ensures r.Success? ==> (r.value.BulkQuerier? <==> cfg.mode == Bulk)
    ensures r.Success? ==> (r.value.BatchIdQuerier? <==> cfg.mode == BatchId)
    ensures r.Success? && r.value.TimestampIncrementingQuerier? ==>
      r.value.offset == offset &&
      r.value.timestampColumns == (if cfg.mode == Incrementing then None else Some(cfg.timestampColumns)) &&
      r.value.incrementingColumn == (if cfg.mode == Timestamp then None else Some(cfg.incrementingColumn))
    ensures r.Success? && r.value.BatchIdQuerier? ==>
      r.value.offset == offset && r.value.info.preQuery == cfg.preQuery &&
      r.value.info.tableOrQuery == source && r.value.info.offsetsTableName == cfg.offsetsTableName &&
      r.value.info.startOffset == cfg.startOffset
  {
    match cfg.mode
    case Bulk => Success(BulkQuerier(source, queryMode))
    case Incrementing =>
      Success(TimestampIncrementingQuerier(source, queryMode, None, Some(cfg.incrementingColumn), offset))
    case Timestamp =>
      Success(TimestampIncrementingQuerier(source, queryMode, Some(cfg.timestampColumns), None, offset))
    case BatchId =>
      var settings := BatchSettingsOf(cfg);
      var info := NewBatchModeInfo(settings, source, settings.timestampColumns, settings.incrementingColumn);
      if info.Failure? then Failure(BatchModeConfig(info.error))
      else Success(BatchIdQuerier(source, queryMode, info.value, offset))
    case TimestampIncrementing =>
      Success(TimestampIncrementingQuerier(source, queryMode, Some(cfg.timestampColumns),
                                           Some(cfg.incrementingColumn), offset))
  }

  /** The stored offsets `start` reads, or none for modes that do not read them. */
  function OffsetsFor(cfg: TaskConfig, queryMode: QueryMode, stored: map<Partition, StoredOffset>)
    : Option<map<Partition, StoredOffset>>
  {
    if UsesStoredOffsets(cfg.mode) then Some(ReadOffsets(stored, RequestedPartitions(queryMode, cfg.tables)))
    else None
  }

  /** One pass of `start`'s loop: the optional NOT NULL check, the offset lookup, the querier. */
  ghost function QuerierFor(cfg: TaskConfig, queryMode: QueryMode, offsets: Option<map<Partition, StoredOffset>>,
                            describe: string -> Columns, source: string): Result<QuerierConfig, StartError>
  {
    var check :=
      if queryMode == Table && cfg.validateNonNulls then
        NullabilityCheck(cfg.mode, source, cfg.incrementingColumn, cfg.timestampColumns, describe(source))
      else None;
    if check.Some? then Failure(check.value)
    else
      var offset := if offsets.Some? then FirstStored(CandidatePartitions(queryMode, source), offsets.value) else None;
      MakeQuerier(cfg, queryMode, source, offset)
  }

  /** In batch mode every querier is built from a validated configuration with exactly one watermark column. */
  lemma BatchQuerierHasOneColumn(cfg: TaskConfig, queryMode: QueryMode, source: string, offset: Option<StoredOffset>)
    requires cfg.mode == BatchId && MakeQuerier(cfg, queryMode, source, offset).Success?
    ensures var q := MakeQuerier(cfg, queryMode, source, offset).value;
      && q.BatchIdQuerier?
      && (q.info.timestampColumn.None? != q.info.incrementingColumn.None?)
      && (GetBatchType(q.info.timestampColumn) == LongBatch <==>
            q.info.incrementingColumn == Some(cfg.incrementingColumn) && cfg.incrementingColumn != [])
      && cfg.query == []
  {
    var settings := BatchSettingsOf(cfg);
    BatchTypeFollowsConfiguredColumn(settings, source);
  }
}
