/**
 * The batch-run state machine of BatchIdTableQuerier: the pre-run gate that
 * resolves a run-to bound from the gating query, the per-row watermark step
 * reported to the batch-id manager, and the post-run commit of the bound.
 *
 * The pure functions GateStep, AfterStep and Commit state each transition on
 * values; the class methods are proved to follow them, and the lemmas at the
 * end are about whole runs.
 */
module BatchQuerier {
  import opened Wrappers
  import opened Text
  import opened BatchConfig

  /** The placeholders of the gating-query template. */
  const TemplateSrcTableName: string := "__TABLE_NAME__"
  const TemplateOffset: string := "__OFFSET__"

  /** An offset as its getters report it; a timestamp is its epoch milliseconds. */
  datatype Offset = Offset(timestamp: int, incrementing: int)

  /** What the database does with the gating SQL it is given. */
  datatype GateResult =
    | PrepareFailed   // preparing the statement throws SQLException
    | QueryFailed     // executing it or reading its row throws SQLException
    | NoRow
    | Row(value: int)

  /** The `ConnectException`s the gate lets escape. */
  datatype GateError =
    | PreparingFailed
    | UpperBoundMissing(table: string, bound: int)

  /** The answer of `doPreProcessing`: run now, wait, or throw. */
  datatype Gate = Run | Wait | Fatal(error: GateError)

  // -----------------------------------------------------------------------
  // The transitions, on values
  // -----------------------------------------------------------------------

  /**
   * `checkPreRun` on the run-to bound: a blank gating query or a bound
   * already resolved means run; otherwise the gating result decides, and a
   * row sets the bound even when the manager then rejects it.
   */
  function GateStep(blank: bool, runTo: Option<int>, result: GateResult, accepted: bool, table: string)
    : (Gate, Option<int>)
  {
    if blank || runTo.Some? then (Run, runTo)
    else match result
      case PrepareFailed => (Fatal(PreparingFailed), runTo)
      case QueryFailed => (Wait, runTo)
      case NoRow => (Wait, runTo)
      case Row(v) => (if accepted then Run else Fatal(UpperBoundMissing(table, v)), Some(v))
  }

  /**
   * `setBatchId`: the manager's last offset moves to the previous row's
   * offset when that differs from the start offset and from the new one.
   */
  function AfterStep(last: int, start: int, previous: int, current: int): int
  {
    if previous != start && previous != current then previous else last
  }

  /** The manager's last offset after rows with offsets `rows` are extracted, from offset `current` on. */
  function AfterRows(last: int, start: int, current: int, rows: seq<int>): int
    decreases |rows|
  {
    if rows == [] then last
    else AfterRows(AfterStep(last, start, current, rows[0]), start, rows[0], rows[1..])
  }

  datatype CommitResult = CommitResult(done: bool, runTo: Option<int>, last: int)

  /**
   * `setLastOffsetTimestamp` / `setLastOffsetLong`: commit the bound as the
   * last offset, and clear it, exactly when it equals the last extracted offset.
   */
  function Commit(runTo: Option<int>, lastExtracted: int, last: int): CommitResult
  {
    if runTo.Some? && runTo.value == lastExtracted then CommitResult(true, None, lastExtracted)
    else CommitResult(false, runTo, last)
  }

  // -----------------------------------------------------------------------
  // The manager's state, and the querier
  // -----------------------------------------------------------------------

  /**
   * The batch-id manager as the querier sees it: the persisted last offsets,
   * the start offsets, and its check that a run-to value exists in the source
   * table (given the timestamp bound and the long bound, one of them null).
   */
  class BatchIdManager {
    var lastOffsetTimestamp: int
    var lastOffsetLong: int
    const startOffsetTimestamp: int
    const startOffsetLong: int
    const checkRunToOffset: (Option<int>, Option<int>) -> bool

    constructor (lastTimestamp: int, lastLong: int, startTimestamp: int, startLong: int,
                 check: (Option<int>, Option<int>) -> bool)
      ensures lastOffsetTimestamp == lastTimestamp && lastOffsetLong == lastLong
      ensures startOffsetTimestamp == startTimestamp && startOffsetLong == startLong
      ensures checkRunToOffset == check
    {
      lastOffsetTimestamp, lastOffsetLong := lastTimestamp, lastLong;
      startOffsetTimestamp, startOffsetLong := startTimestamp, startLong;
      checkRunToOffset := check;
    }
  }

  class BatchIdTableQuerier {
    const info: BatchModeInfo
    const batchType: BatchType
    const srcTableName: string
    const manager: BatchIdManager
    var oldOffset: Option<Offset>
    var offset: Offset
    var runToOffsetTs: Option<int>
    var runToOffsetLong: Option<int>

    /** Only the run-to field of the querier's own batch type is ever set. */
    ghost predicate Valid()
      reads this
    {
      && batchType == GetBatchType(info.timestampColumn)
      && (batchType == LongBatch ==> runToOffsetTs.None?)
      && (batchType == TimestampBatch ==> runToOffsetLong.None?)
    }

    /** The initial offset is the manager's last offsets, whatever offset was stored for the task. */
    constructor (info: BatchModeInfo, manager: BatchIdManager, srcTableName: string)
      ensures Valid()
      ensures this.info == info && this.manager == manager && this.srcTableName == srcTableName
      ensures offset == Offset(manager.lastOffsetTimestamp, manager.lastOffsetLong)
      ensures oldOffset == None && runToOffsetTs == None && runToOffsetLong == None
    {
      this.info := info;
      this.manager := manager;
      this.srcTableName := srcTableName;
      batchType := GetBatchType(info.timestampColumn);
      offset := Offset(manager.lastOffsetTimestamp, manager.lastOffsetLong);
      oldOffset := None;
      runToOffsetTs, runToOffsetLong := None, None;
    }

    /** The component of an offset that the batch type tracks. */
    function Component(o: Offset): int
    {
      if batchType == LongBatch then o.incrementing else o.timestamp
    }

    /** The run-to bound of the querier's batch type. */
    function RunTo(): Option<int>
      reads this
    {
      if batchType == LongBatch then runToOffsetLong else runToOffsetTs
    }

    function ManagerLast(): int
      reads manager
    {
      if batchType == LongBatch then manager.lastOffsetLong else manager.lastOffsetTimestamp
    }

    function ManagerStart(): int
    {
      if batchType == LongBatch then manager.startOffsetLong else manager.startOffsetTimestamp
    }

    /** `checkRunToOffset` on a bound of the querier's type (the other bound null). */
    function Accepts(v: int): bool
    {
      if batchType == LongBatch then manager.checkRunToOffset(None, Some(v))
      else manager.checkRunToOffset(Some(v), None)
    }

    // --- the bounds the query is built from ---

    /** The timestamp lower bound: the manager's last offset for a TIMESTAMP querier. */
    function BeginTimestampValue(): (r: int)
      reads manager
      ensures batchType == TimestampBatch ==> r == ManagerLast()
    {
      manager.lastOffsetTimestamp
    }

    function EndTimestampValue(): (r: Option<int>)
      reads this
      requires Valid()
      ensures batchType == LongBatch ==> r == None
      ensures batchType == TimestampBatch ==> r == RunTo()
    {
      runToOffsetTs
    }

    /** The incrementing lower bound: the manager's last offset for a LONG querier. */
    function LastIncrementedValue(): (r: int)
      reads manager
      ensures batchType == LongBatch ==> r == ManagerLast()
    {
      manager.lastOffsetLong
    }

    function HighestIncrementedValue(): (r: Option<int>)
      reads this
      requires Valid()
      ensures batchType == TimestampBatch ==> r == None
      ensures batchType == LongBatch ==> r == RunTo()
    {
      runToOffsetLong
    }

    // --- per-row bookkeeping ---

    method SetBatchId(previous: Offset, current: Offset)
      modifies manager
      ensures ManagerLast() == AfterStep(old(ManagerLast()), ManagerStart(), Component(previous), Component(current))
      ensures batchType == LongBatch ==> manager.lastOffsetTimestamp == old(manager.lastOffsetTimestamp)
      ensures batchType == TimestampBatch ==> manager.lastOffsetLong == old(manager.lastOffsetLong)
    {
      match batchType
      case LongBatch =>
        var oldId := previous.incrementing;
        var newId := current.incrementing;
        if oldId != manager.startOffsetLong && oldId != newId {
          manager.lastOffsetLong := oldId;
        }
      case TimestampBatch =>
        var oldTs := previous.timestamp;
        var newTs := current.timestamp;
        if oldTs != manager.startOffsetTimestamp && oldTs != newTs {
          manager.lastOffsetTimestamp := oldTs;
        }
    }

    /**
     * The offset bookkeeping of `extractRecord`: the row's offset becomes the
     * current offset, the manager sees the step from the previous one, and
     * `oldOffset` ends equal to the new offset.
     */
    method ExtractRecord(extracted: Offset)
      requires Valid()
      modifies this, manager
      ensures Valid()
      ensures offset == extracted && oldOffset == Some(extracted)
      ensures runToOffsetTs == old(runToOffsetTs) && runToOffsetLong == old(runToOffsetLong)
      ensures ManagerLast() == AfterStep(old(ManagerLast()), ManagerStart(), Component(old(offset)), Component(extracted))
      ensures batchType == LongBatch ==> manager.lastOffsetTimestamp == old(manager.lastOffsetTimestamp)
      ensures batchType == TimestampBatch ==> manager.lastOffsetLong == old(manager.lastOffsetLong)
    {
      oldOffset := Some(offset);
      offset := extracted;
      SetBatchId(oldOffset.value, offset);
      oldOffset := Some(offset);
    }

    // --- the pre-run gate ---

    /**
     * `getPreQueryStatement`'s SQL: the trimmed template with the quoted table
     * name and the manager's last offset substituted; none for a blank template.
     */
    function PreQueryStatement(format: int -> string): (r: Option<string>)
      reads manager
      ensures r.None? <==> IsBlank(info.preQuery)
      ensures (r.Some? && !Occurs(Trim(info.preQuery), TemplateSrcTableName)
                       && !Occurs(Trim(info.preQuery), TemplateOffset)) ==> r.value == Trim(info.preQuery)
    {
      var sql := Trim(info.preQuery);
      TrimEmptyIffBlank(info.preQuery);
      if sql == [] then None
      else
        var withTable := ReplaceAll(sql, TemplateSrcTableName, "'" + srcTableName + "'");
        Some(ReplaceAll(withTable, TemplateOffset, OffsetText(format)))
    }

    /** The text substituted for `__OFFSET__`: the manager's last offset of the querier's type. */
    function OffsetText(format: int -> string): string
      reads manager
    {
      if batchType == LongBatch then DecimalString(manager.lastOffsetLong)
      else "'" + format(manager.lastOffsetTimestamp) + "'"
    }

    /**
     * A gating query with one `__OFFSET__` and no `__TABLE_NAME__` gets the
     * decimal last offset of a LONG querier, or the quoted formatted last
     * timestamp of a TIMESTAMP querier, in place of the placeholder.
     */
    lemma PreQueryFillsOffset(format: int -> string, a: string, b: string)
      requires Trim(info.preQuery) == a + TemplateOffset + b
      requires forall i :: OccursAt(a + TemplateOffset + b, TemplateOffset, i) ==> i == |a|
      requires !Occurs(a + TemplateOffset + b, TemplateSrcTableName)
      ensures batchType == LongBatch ==>
        PreQueryStatement(format) == Some(a + DecimalString(manager.lastOffsetLong) + b)
      ensures batchType == TimestampBatch ==>
        PreQueryStatement(format) == Some(a + ("'" + format(manager.lastOffsetTimestamp) + "'") + b)
    {
      ReplaceSingle(a, TemplateOffset, OffsetText(format), b);
    }

    /**
     * A gating query with one `__TABLE_NAME__` gets the quoted
     * `schema.table` name in its place; no `__OFFSET__` may occur in the
     * result (the name itself could carry one).
     */
    lemma PreQueryFillsTableName(format: int -> string, a: string, b: string)
      requires Trim(info.preQuery) == a + TemplateSrcTableName + b
      requires forall i :: OccursAt(a + TemplateSrcTableName + b, TemplateSrcTableName, i) ==> i == |a|
      requires !Occurs(a + ("'" + srcTableName + "'") + b, TemplateOffset)
      ensures PreQueryStatement(format) == Some(a + ("'" + srcTableName + "'") + b)
    {
      ReplaceSingle(a, TemplateSrcTableName, "'" + srcTableName + "'", b);
    }

    /**
     * A gating query with one `__TABLE_NAME__` and, once the quoted name is in
     * place, one `__OFFSET__`: both are filled, the table name first.
     */
    lemma PreQueryFillsBoth(format: int -> string, a: string, b: string, c: string, d: string)
      requires Trim(info.preQuery) == a + TemplateSrcTableName + b
      requires forall i :: OccursAt(a + TemplateSrcTableName + b, TemplateSrcTableName, i) ==> i == |a|
      requires a + ("'" + srcTableName + "'") + b == c + TemplateOffset + d
      requires forall i :: OccursAt(c + TemplateOffset + d, TemplateOffset, i) ==> i == |c|
      ensures PreQueryStatement(format) == Some(c + OffsetText(format) + d)
      ensures batchType == LongBatch ==>
        PreQueryStatement(format) == Some(c + DecimalString(manager.lastOffsetLong) + d)
    {
      ReplaceSingle(a, TemplateSrcTableName, "'" + srcTableName + "'", b);
      ReplaceSingle(c, TemplateOffset, OffsetText(format), d);
    }

    /** What the database answers to the gating SQL (nothing is sent for a blank template). */
    function GateInput(db: string -> GateResult, format: int -> string): GateResult
      reads manager
    {
      match PreQueryStatement(format)
      case None => NoRow
      case Some(sql) => db(sql)
    }

    /**
     * `setRunToOffset`: a row sets the bound of the querier's type, and a
     * bound the manager rejects is an error; no row or a failed query leaves
     * the bound as it was.
     */
    method SetRunToOffset(db: string -> GateResult, format: int -> string) returns (err: Option<GateError>)
      requires Valid() && !IsBlank(info.preQuery)
      modifies this
      ensures Valid() && offset == old(offset) && oldOffset == old(oldOffset)
      ensures match GateInput(db, format)
        case PrepareFailed => err == Some(PreparingFailed) && RunTo() == old(RunTo())
        case QueryFailed => err == None && RunTo() == old(RunTo())
        case NoRow => err == None && RunTo() == old(RunTo())
        case Row(v) => RunTo() == Some(v) &&
                       err == (if Accepts(v) then None else Some(UpperBoundMissing(srcTableName, v)))
    {
      var sql := PreQueryStatement(format);
      var result := db(sql.value);
      match result
      case PrepareFailed =>
        err := Some(PreparingFailed);
      case QueryFailed =>
        err := None;
      case NoRow =>
        err := None;
      case Row(v) =>
        if batchType == TimestampBatch {
          runToOffsetTs := Some(v);
        } else {
          runToOffsetLong := Some(v);
        }
        var checked := manager.checkRunToOffset(runToOffsetTs, runToOffsetLong);
        err := if checked then None else Some(UpperBoundMissing(srcTableName, v));
    }

    /** `checkPreRun`: follows GateStep on the run-to bound. */
    method CheckPreRun(db: string -> GateResult, format: int -> string) returns (g: Gate)
      requires Valid()
      modifies this
      ensures Valid() && offset == old(offset) && oldOffset == old(oldOffset)
      ensures var input := GateInput(db, format);
        (g, RunTo()) == GateStep(IsBlank(info.preQuery), old(RunTo()), input,
                                 input.Row? && Accepts(input.value), srcTableName)
    {
      TrimEmptyIffBlank(info.preQuery);
      if |Trim(info.preQuery)| == 0 {
        return Run;
      }
      if runToOffsetLong.Some? || runToOffsetTs.Some? {
        return Run;
      }
      var err := SetRunToOffset(db, format);
      if err.Some? {
        return Fatal(err.value);
      }
      g := if runToOffsetLong.Some? || runToOffsetTs.Some? then Run else Wait;
    }

    method DoPreProcessing(db: string -> GateResult, format: int -> string) returns (g: Gate)
      requires Valid()
      modifies this
      ensures Valid() && offset == old(offset) && oldOffset == old(oldOffset)
      ensures var input := GateInput(db, format);
        (g, RunTo()) == GateStep(IsBlank(info.preQuery), old(RunTo()), input,
                                 input.Row? && Accepts(input.value), srcTableName)
    {
      g := CheckPreRun(db, format);
    }

    // --- the post-run commit ---

    method SetLastOffsetTimestamp() returns (done: bool)
      requires oldOffset.Some?
      modifies this`runToOffsetTs, manager`lastOffsetTimestamp
      ensures var c := Commit(old(runToOffsetTs), old(oldOffset.value.timestamp), old(manager.lastOffsetTimestamp));
        done == c.done && runToOffsetTs == c.runTo && manager.lastOffsetTimestamp == c.last
    {
      var tsLastOffset := oldOffset.value.timestamp;
      if runToOffsetTs.Some? && runToOffsetTs.value == tsLastOffset {
        manager.lastOffsetTimestamp := tsLastOffset;
        runToOffsetTs := None;
        return true;
      }
      return false;
    }

    method SetLastOffsetLong() returns (done: bool)
      requires oldOffset.Some?
      modifies this`runToOffsetLong, manager`lastOffsetLong
      ensures var c := Commit(old(runToOffsetLong), old(oldOffset.value.incrementing), old(manager.lastOffsetLong));
        done == c.done && runToOffsetLong == c.runTo && manager.lastOffsetLong == c.last
    {
      var lastOffset := oldOffset.value.incrementing;
      if runToOffsetLong.Some? && runToOffsetLong.value == lastOffset {
        manager.lastOffsetLong := lastOffset;
        runToOffsetLong := None;
        return true;
      }
      return false;
    }

    method SetLastCompletedOffsetInDB() returns (done: bool)
      requires Valid() && oldOffset.Some?
      modifies this, manager
      ensures Valid() && offset == old(offset) && oldOffset == old(oldOffset)
      ensures var c := Commit(old(RunTo()), Component(old(oldOffset.value)), old(ManagerLast()));
        done == c.done && RunTo() == c.runTo && ManagerLast() == c.last
      ensures batchType == LongBatch ==> manager.lastOffsetTimestamp == old(manager.lastOffsetTimestamp)
      ensures batchType == TimestampBatch ==> manager.lastOffsetLong == old(manager.lastOffsetLong)
    {
      match batchType
      case LongBatch =>
        done := SetLastOffsetLong();
      case TimestampBatch =>
        done := SetLastOffsetTimestamp();
    }

    /**
     * `doPostProcessing`: on a commit the next run's lower bound is this
     * run's upper bound and the upper bound is cleared; otherwise nothing changes.
     */
    method DoPostProcessing() returns (done: bool)
      requires Valid() && oldOffset.Some?
      modifies this, manager
      ensures Valid() && offset == old(offset) && oldOffset == old(oldOffset)
      ensures var c := Commit(old(RunTo()), Component(old(oldOffset.value)), old(ManagerLast()));
        done == c.done && RunTo() == c.runTo && ManagerLast() == c.last
      ensures done && batchType == TimestampBatch ==>
        old(EndTimestampValue()).Some? && BeginTimestampValue() == old(EndTimestampValue()).value &&
        EndTimestampValue() == None
      ensures done && batchType == LongBatch ==>
        old(HighestIncrementedValue()).Some? && LastIncrementedValue() == old(HighestIncrementedValue()).value &&
        HighestIncrementedValue() == None
      ensures !done ==> RunTo() == old(RunTo()) && ManagerLast() == old(ManagerLast())
      ensures batchType == LongBatch ==> manager.lastOffsetTimestamp == old(manager.lastOffsetTimestamp)
      ensures batchType == TimestampBatch ==> manager.lastOffsetLong == old(manager.lastOffsetLong)
    {
      done := SetLastCompletedOffsetInDB();
    }
  }

  // -----------------------------------------------------------------------
  // Properties of whole runs
  // -----------------------------------------------------------------------

  /** The gate's outcomes: when it runs, when it waits, and that waiting leaves no bound. */
  lemma GateOutcomes(blank: bool, runTo: Option<int>, result: GateResult, accepted: bool, table: string)
    ensures var (g, bound) := GateStep(blank, runTo, result, accepted, table);
      && (g == Run <==> blank || runTo.Some? || (result.Row? && accepted))
      && (g == Wait <==> !blank && runTo.None? && (result.NoRow? || result.QueryFailed?))
      && (g == Wait ==> bound == None)
      && (g == Run && !blank ==> bound.Some?)
      && (runTo.Some? ==> bound == runTo)
  {
  }

  /**
   * A commit that fails keeps the bound, so the next gate runs without
   * consulting the gating query, whatever it would have answered.
   */
  lemma FailedCommitKeepsGateOpen(runTo: int, lastExtracted: int, last: int,
                                  blank: bool, result: GateResult, accepted: bool, table: string)
    ensures var c := Commit(Some(runTo), lastExtracted, last);
      !c.done ==> c.runTo == Some(runTo) && c.last == last &&
                  GateStep(blank, c.runTo, result, accepted, table) == (Run, Some(runTo))
  {
  }

  predicate NonDecreasing(rows: seq<int>)
  {
    forall i, j :: 0 <= i < j < |rows| ==> rows[i] <= rows[j]
  }

  /**
   * While the extracted offsets climb from `current` up to at most `bound`,
   * the manager's last offset never goes back and never passes the bound.
   */
  lemma {:induction false} AfterRowsWithinBound(last: int, start: int, current: int, rows: seq<int>, bound: int)
    requires last <= current <= bound
    requires NonDecreasing(rows)
    requires forall i :: 0 <= i < |rows| ==> current <= rows[i] <= bound
    ensures last <= AfterRows(last, start, current, rows) <= bound
    decreases |rows|
  {
    if rows != [] {
      var next := AfterStep(last, start, current, rows[0]);
      assert last <= next <= rows[0];
      AfterRowsWithinBound(next, start, rows[0], rows[1..], bound);
    }
  }

  /** The last offset after a run is the previous row's offset whenever the last two rows differ from each other and from the start offset. */
  lemma {:induction false} AfterRowsRecordsLastStep(last: int, start: int, current: int, rows: seq<int>)
    requires |rows| >= 2
    requires rows[|rows| - 2] != start && rows[|rows| - 2] != rows[|rows| - 1]
    ensures AfterRows(last, start, current, rows) == rows[|rows| - 2]
    decreases |rows|
  {
    var next := AfterStep(last, start, current, rows[0]);
    if |rows| > 2 {
      AfterRowsRecordsLastStep(next, start, rows[0], rows[1..]);
    } else {
      assert rows[1..][1..] == [];
      assert AfterRows(next, start, rows[0], rows[1..]) == AfterStep(next, start, rows[0], rows[1]);
    }
  }

  /**
   * A whole batch cycle with bound `bound`: rows are extracted, then the
   * commit runs. The watermark ends between its old value and the bound; it
   * is committed exactly when the last row reaches the bound, and then it is
   * the bound itself.
   */
  lemma BatchCycleWithinBound(last: int, start: int, current: int, rows: seq<int>, bound: int)
    requires last <= current <= bound && |rows| > 0
    requires NonDecreasing(rows)
    requires forall i :: 0 <= i < |rows| ==> current <= rows[i] <= bound
    ensures var c := Commit(Some(bound), rows[|rows| - 1], AfterRows(last, start, current, rows));
      && last <= c.last <= bound
      && (c.done <==> rows[|rows| - 1] == bound)
      && (c.done ==> c.last == bound && c.runTo == None)
      && (!c.done ==> c.runTo == Some(bound))
  {
    AfterRowsWithinBound(last, start, current, rows, bound);
  }
}
