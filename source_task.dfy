/**
 * The JDBC source task: `start` turns the configuration into one querier per
 * table (or one for the query) and queues them; `poll` runs the head
 * querier until it has a batch of records, nothing more to read, or fails.
 */
module SourceTask {
  import opened Wrappers
  import opened TaskSetup
  import opened QuerierQueue

  /** What `poll` hands back: a batch, `null`, or an exception. */
  datatype PollOutcome = Records(records: seq<SourceRecord>) | NoRecords | Raised

  /** One pass of `poll`'s loop: go round again, or leave `poll` with an outcome. */
  datatype CycleResult = Again | Return(outcome: PollOutcome)

  /**
   * What the task reads from outside while starting: the stored offsets,
   * the column definitions of each table, what each source's queries will
   * answer, and what a batch-id querier's pre-processing answers.
   */
  datatype Environment = Environment(
    stored: map<Partition, StoredOffset>,
    describe: string -> Columns,
    cursor: string -> seq<Step>,
    gate: string -> bool)

  /** A querier as `start` queues it: no query open, last update 0. */
  function NewQuerier(config: QuerierConfig, env: Environment): (q: Querier)
    ensures !q.querying && q.lastUpdate == 0 && q.postRuns == 0 && q.config == config
    ensures q.ready <==> (config.BatchIdQuerier? ==> env.gate(config.source))
  {
    Querier(config, false, 0, !config.BatchIdQuerier? || env.gate(config.source), env.cursor(config.source), 0)
  }

  /** How long `poll` sleeps before the head querier is due: at most 100 ms, and never past its next update. */
  function SleepMs(lastUpdate: int, pollInterval: int, now: int): (ms: int)
    ensures ms <= 100
    ensures ms > 0 ==> now + ms <= lastUpdate + pollInterval
    ensures ms <= 0 <==> lastUpdate + pollInterval <= now
    ensures ms <= lastUpdate + pollInterval - now && (ms == 100 || ms == lastUpdate + pollInterval - now)
  {
    var untilNext := lastUpdate + pollInterval - now;
    if untilNext < 100 then untilNext else 100
  }

  /** The head querier after a batch: its query open, its cursor advanced, post-processed when exhausted. */
  function AfterBatch(q: Querier, p: Pulled): (q': Querier)
    requires p.consumed <= |q.script|
    ensures q'.querying && q'.config == q.config && q'.lastUpdate == q.lastUpdate && q'.ready == q.ready
    ensures IsSuffix(q'.script, q.script) && |q'.script| == |q.script| - p.consumed
    ensures q'.postRuns == if p.end == Exhausted then q.postRuns + 1 else q.postRuns
  {
    var started := q.(querying := true, script := q.script[p.consumed..]);
    if p.end == Exhausted then started.(postRuns := q.postRuns + 1) else started
  }

  /** What `poll` does with a batch: return it, go round when it is empty, `null` on SQL errors, rethrow others. */
  function BatchOutcome(p: Pulled): (c: CycleResult)
    ensures c == Return(NoRecords) <==> p.end == SqlError
    ensures c == Return(Raised) <==> p.end == Failed
    ensures c.Return? && c.outcome.Records? ==> c.outcome.records == p.records != []
    ensures c == Again <==> (p.end == Filled || p.end == Exhausted) && p.records == []
  {
    match p.end
    case SqlError => Return(NoRecords)
    case Failed => Return(Raised)
    case _ => if p.records == [] then Again else Return(Records(p.records))
  }

  /** Records taken from a cursor are its next answers, in order. */
  lemma {:induction false} BatchIsNextRows(script: seq<Step>, batchMaxRows: int)
    ensures var p := Pull(script, batchMaxRows);
      BatchOutcome(p).Return? && BatchOutcome(p).outcome.Records? ==>
        && 0 < |p.records| <= batchMaxRows
        && Begins(RowsOf(p.records), script)
  {
    var p := Pull(script, batchMaxRows);
    PullShape(script, batchMaxRows);
    assert script[..|p.records|] == RowsOf(p.records) by {
      forall i | 0 <= i < |p.records|
        ensures script[..|p.records|][i] == RowsOf(p.records)[i]
      {
        assert script[i] == Row(p.records[i]);
      }
    }
  }

  // -----------------------------------------------------------------------
  // The task's state and what one pass of `poll` does to it
  // -----------------------------------------------------------------------

  /** The part of the task that `poll` changes. */
  datatype TaskState = TaskState(
    queriers: seq<Querier>,
    queue: seq<nat>,
    now: int,
    providerOpen: bool,
    dialectOpen: bool)

  predicate Scheduled(s: TaskState)
  {
    InRange(s.queue, s.queriers) && |s.queue| > 0
  }

  /** `resetAndRequeueHead` on the task's state. */
  function RequeueHead(s: TaskState): (s': TaskState)
    requires Scheduled(s)
    ensures Scheduled(s') && |s'.queriers| == |s.queriers|
  {
    var requeued := Requeue(s.queue, s.queriers, s.now);
    s.(queue := requeued.0, queriers := requeued.1)
  }

  /**
   * The head querier's turn: it opens its query if needed and reads up to
   * `batchMaxRows` rows; an exhausted query is post-processed and requeued,
   * an error requeues the head, and an error other than an SQL one also
   * closes the resources.
   */
  function Batch(s: TaskState, batchMaxRows: int): (r: (TaskState, CycleResult))
    requires Scheduled(s)
    ensures Scheduled(r.0) && |r.0.queriers| == |s.queriers|
  {
    var h := s.queue[0];
    var q := s.queriers[h];
    var p := Pull(q.script, batchMaxRows);
    var pulled := s.(queriers := s.queriers[h := AfterBatch(q, p)]);
    var next := if p.end == Filled then pulled else RequeueHead(pulled);
    var failed := p.end == Failed;
    (next.(providerOpen := next.providerOpen && !failed, dialectOpen := next.dialectOpen && !failed),
     BatchOutcome(p))
  }

  /**
   * One pass of the loop in `poll`. A head that is not mid-query first runs
   * its pre-processing: when that says no, the head is requeued and the
   * task sleeps a poll interval; when the head is not yet due, the task
   * sleeps until it is (at most 100 ms) and looks again. Otherwise it is
   * the head's turn.
   */
  function CycleStep(s: TaskState, pollInterval: int, batchMaxRows: int): (r: (TaskState, CycleResult))
    requires Scheduled(s)
    ensures Scheduled(r.0) && |r.0.queriers| == |s.queriers|
  {
    var q := s.queriers[s.queue[0]];
    if !q.querying && !q.ready then
      (RequeueHead(s).(now := s.now + pollInterval), Again)
    else if !q.querying && SleepMs(q.lastUpdate, pollInterval, s.now) > 0 then
      (s.(now := s.now + SleepMs(q.lastUpdate, pollInterval, s.now)), Again)
    else
      Batch(s, batchMaxRows)
  }

  /** The end of `poll` after a stop: requeue the head and close the resources. */
  function Shutdown(s: TaskState): (s': TaskState)
    requires Scheduled(s)
    ensures Scheduled(s') && !s'.providerOpen && !s'.dialectOpen
  {
    RequeueHead(s).(providerOpen := false, dialectOpen := false)
  }

  /** `poll` when the running flag reads true `checks` more times. */
  function PollRun(s: TaskState, checks: nat, pollInterval: int, batchMaxRows: int): (r: (TaskState, PollOutcome, bool))
    requires Scheduled(s)
    ensures Scheduled(r.0)
    decreases checks, 1
  {
    if checks == 0 then (Shutdown(s), NoRecords, true)
    else AfterCycle(CycleStep(s, pollInterval, batchMaxRows), checks - 1, pollInterval, batchMaxRows)
  }

  /** What `poll` does after a pass: return the pass's result, or go back to the running flag. */
  function AfterCycle(step: (TaskState, CycleResult), checks: nat, pollInterval: int, batchMaxRows: int)
    : (r: (TaskState, PollOutcome, bool))
    requires Scheduled(step.0)
    ensures Scheduled(r.0)
    decreases checks, 2
  {
    if step.1.Return? then (step.0, step.1.outcome, false)
    else PollRun(step.0, checks, pollInterval, batchMaxRows)
  }

  /** Requeueing the head keeps the queue well formed, every querier in it, and no query open. */
  lemma RequeueHeadKeepsQueue(s: TaskState)
    requires WellFormed(s.queue, s.queriers) && |s.queue| > 0
    ensures var s' := RequeueHead(s);
      && WellFormed(s'.queue, s'.queriers)
      && multiset(s'.queue) == multiset(s.queue)
      && (forall i :: 0 <= i < |s'.queue| ==> !s'.queriers[s'.queue[i]].querying)
  {
    RequeueKeepsWellFormed(s.queue, s.queriers, s.now);
  }

  /** Requeueing the head moves no cursor. */
  lemma RequeueHeadAdvances(s: TaskState)
    requires WellFormed(s.queue, s.queriers) && |s.queue| > 0
    ensures Advanced(s.queriers, RequeueHead(s).queriers)
  {
    RequeueKeepsWellFormed(s.queue, s.queriers, s.now);
  }

  /** Requeueing stamps the head with the current time and closes its query; no other querier changes. */
  lemma RequeueHeadStamps(s: TaskState)
    requires Scheduled(s)
    ensures var s' := RequeueHead(s); var h := s.queue[0];
      && s'.queriers[h].lastUpdate == s.now && !s'.queriers[h].querying
      && s'.queriers[h].script == s.queriers[h].script && s'.queriers[h].postRuns == s.queriers[h].postRuns
      && (forall id :: 0 <= id < |s.queriers| && id != h ==> s'.queriers[id] == s.queriers[id])
      && s'.now == s.now && s'.providerOpen == s.providerOpen && s'.dialectOpen == s.dialectOpen
  {
  }

  /** With the clock no earlier than every querier's last update, the head goes to the back of the queue. */
  lemma RequeueHeadToBack(s: TaskState)
    requires WellFormed(s.queue, s.queriers) && |s.queue| > 0
    requires forall i :: 0 <= i < |s.queue| ==> s.queriers[s.queue[i]].lastUpdate <= s.now
    ensures RequeueHead(s).queue == s.queue[1..] + [s.queue[0]]
  {
    var h := s.queue[0];
    var tail := s.queue[1..];
    var qs' := s.queriers[h := Reset(s.queriers[h], s.now)];
    TailWellFormed(s.queue, s.queriers, Reset(s.queriers[h], s.now));
    forall i | 0 <= i < |tail|
      ensures qs'[tail[i]].lastUpdate <= qs'[h].lastUpdate
    {
      assert tail[i] == s.queue[i + 1] && tail[i] in tail;
    }
    InsertLatestAppends(tail, h, qs');
  }

  lemma AdvancedReflexive(qs: seq<Querier>)
    ensures Advanced(qs, qs)
  {
    forall id | 0 <= id < |qs|
      ensures IsSuffix(qs[id].script, qs[id].script)
    {
      assert qs[id].script[0..] == qs[id].script;
    }
  }

  /** The head's turn keeps the queue well formed with every querier in it. */
  lemma BatchKeepsQueue(s: TaskState, batchMaxRows: int)
    requires WellFormed(s.queue, s.queriers) && |s.queue| > 0
    ensures var s' := Batch(s, batchMaxRows).0;
      && WellFormed(s'.queue, s'.queriers)
      && multiset(s'.queue) == multiset(s.queue)
  {
    var h := s.queue[0];
    var q := s.queriers[h];
    var p := Pull(q.script, batchMaxRows);
    var pulled := s.(queriers := s.queriers[h := AfterBatch(q, p)]);
    HeadUpdateKeepsWellFormed(s.queue, s.queriers, AfterBatch(q, p));
    var next := if p.end == Filled then pulled else RequeueHead(pulled);
    if p.end != Filled {
      RequeueHeadKeepsQueue(pulled);
    }
    assert Batch(s, batchMaxRows).0.queue == next.queue && Batch(s, batchMaxRows).0.queriers == next.queriers;
  }

  /** The head is post-processed exactly when its cursor was exhausted. */
  lemma BatchPostProcesses(s: TaskState, batchMaxRows: int)
    requires Scheduled(s)
    ensures var h := s.queue[0]; var q := s.queriers[h];
      var p := Pull(q.script, batchMaxRows);
      Batch(s, batchMaxRows).0.queriers[h].postRuns == if p.end == Exhausted then q.postRuns + 1 else q.postRuns
  {
    var h := s.queue[0];
    var q := s.queriers[h];
    var p := Pull(q.script, batchMaxRows);
    var pulled := s.(queriers := s.queriers[h := AfterBatch(q, p)]);
    if p.end != Filled {
      RequeueHeadStamps(pulled);
      assert Batch(s, batchMaxRows).0.queriers == RequeueHead(pulled).queriers;
    }
  }

  /**
   * The head is reset and requeued exactly when the batch did not fill up; a
   * full batch leaves the queue as it was with the head's query still open.
   */
  lemma BatchRequeues(s: TaskState, batchMaxRows: int)
    requires Scheduled(s)
    ensures var h := s.queue[0]; var q := s.queriers[h];
      var p := Pull(q.script, batchMaxRows); var s' := Batch(s, batchMaxRows).0;
      && (p.end == Filled <==> s'.queriers[h].querying)
      && (p.end == Filled ==> s'.queue == s.queue && s'.queriers[h].lastUpdate == q.lastUpdate)
      && (p.end != Filled ==> s'.queriers[h].lastUpdate == s.now)
      && s'.now == s.now
  {
    var h := s.queue[0];
    var q := s.queriers[h];
    var p := Pull(q.script, batchMaxRows);
    var pulled := s.(queriers := s.queriers[h := AfterBatch(q, p)]);
    var s' := Batch(s, batchMaxRows).0;
    if p.end == Filled {
      assert s'.queriers == pulled.queriers && s'.queue == s.queue && s'.now == s.now;
    } else {
      RequeueHeadStamps(pulled);
      assert s'.queriers == RequeueHead(pulled).queriers && s'.now == s.now;
    }
  }

  /** The head's turn only moves cursors forward. */
  lemma BatchAdvances(s: TaskState, batchMaxRows: int)
    requires WellFormed(s.queue, s.queriers) && |s.queue| > 0
    ensures Advanced(s.queriers, Batch(s, batchMaxRows).0.queriers)
  {
    var h := s.queue[0];
    var q := s.queriers[h];
    var p := Pull(q.script, batchMaxRows);
    var pulled := s.(queriers := s.queriers[h := AfterBatch(q, p)]);
    HeadUpdateKeepsWellFormed(s.queue, s.queriers, AfterBatch(q, p));
    AdvancedReflexive(s.queriers);
    assert Advanced(s.queriers, pulled.queriers);
    var next := if p.end == Filled then pulled else RequeueHead(pulled);
    if p.end != Filled {
      RequeueHeadAdvances(pulled);
      AdvancedTransitive(s.queriers, pulled.queriers, next.queriers);
    }
    assert Batch(s, batchMaxRows).0.queriers == next.queriers;
  }

  /** One pass keeps the queue well formed with every querier in it. */
  lemma CycleKeepsQueue(s: TaskState, pollInterval: int, batchMaxRows: int)
    requires WellFormed(s.queue, s.queriers) && |s.queue| > 0
    ensures var s' := CycleStep(s, pollInterval, batchMaxRows).0;
      && WellFormed(s'.queue, s'.queriers)
      && multiset(s'.queue) == multiset(s.queue)
  {
    var q := s.queriers[s.queue[0]];
    var s' := CycleStep(s, pollInterval, batchMaxRows).0;
    if !q.querying && !q.ready {
      RequeueHeadKeepsQueue(s);
      assert s'.queue == RequeueHead(s).queue && s'.queriers == RequeueHead(s).queriers;
    } else if !q.querying && SleepMs(q.lastUpdate, pollInterval, s.now) > 0 {
      assert s'.queue == s.queue && s'.queriers == s.queriers;
    } else {
      BatchKeepsQueue(s, batchMaxRows);
      assert s' == Batch(s, batchMaxRows).0;
    }
  }

  /** One pass only moves cursors forward. */
  lemma CycleAdvances(s: TaskState, pollInterval: int, batchMaxRows: int)
    requires WellFormed(s.queue, s.queriers) && |s.queue| > 0
    ensures Advanced(s.queriers, CycleStep(s, pollInterval, batchMaxRows).0.queriers)
  {
    var q := s.queriers[s.queue[0]];
    var s' := CycleStep(s, pollInterval, batchMaxRows).0;
    if !q.querying && !q.ready {
      RequeueHeadAdvances(s);
      assert s'.queriers == RequeueHead(s).queriers;
    } else if !q.querying && SleepMs(q.lastUpdate, pollInterval, s.now) > 0 {
      AdvancedReflexive(s.queriers);
      assert s'.queriers == s.queriers;
    } else {
      BatchAdvances(s, batchMaxRows);
      assert s' == Batch(s, batchMaxRows).0;
    }
  }

  /** A batch one pass returns is non-empty, at most `batchMaxRows` long, and the head querier's next rows. */
  lemma CycleBatch(s: TaskState, pollInterval: int, batchMaxRows: int)
    requires Scheduled(s)
    ensures var c := CycleStep(s, pollInterval, batchMaxRows).1;
      c.Return? && c.outcome.Records? ==>
        0 < |c.outcome.records| <= batchMaxRows && Begins(RowsOf(c.outcome.records), s.queriers[s.queue[0]].script)
  {
    BatchIsNextRows(s.queriers[s.queue[0]].script, batchMaxRows);
  }

  /** One pass closes the resources when it rethrows and leaves them alone otherwise. */
  lemma CycleResources(s: TaskState, pollInterval: int, batchMaxRows: int)
    requires Scheduled(s)
    ensures var (s', c) := CycleStep(s, pollInterval, batchMaxRows);
      && (c == Return(Raised) ==> !s'.providerOpen && !s'.dialectOpen)
      && (c != Return(Raised) ==> s'.providerOpen == s.providerOpen && s'.dialectOpen == s.dialectOpen)
  {
  }

  /** Whatever `poll` returns, the queue is well formed and holds every querier it held before. */
  lemma {:induction false} PollKeepsQueue(s: TaskState, checks: nat, pollInterval: int, batchMaxRows: int)
    requires WellFormed(s.queue, s.queriers) && |s.queue| > 0
    ensures var r := PollRun(s, checks, pollInterval, batchMaxRows);
      && WellFormed(r.0.queue, r.0.queriers) && |r.0.queue| > 0
      && multiset(r.0.queue) == multiset(s.queue)
    decreases checks, 1
  {
    if checks == 0 {
      RequeueHeadKeepsQueue(s);
      assert PollRun(s, checks, pollInterval, batchMaxRows).0 == Shutdown(s);
    } else {
      var step := CycleStep(s, pollInterval, batchMaxRows);
      assert PollRun(s, checks, pollInterval, batchMaxRows) == AfterCycle(step, checks - 1, pollInterval, batchMaxRows);
      CycleKeepsQueue(s, pollInterval, batchMaxRows);
      AfterCycleKeepsQueue(step, checks - 1, pollInterval, batchMaxRows);
    }
  }

  lemma {:induction false} AfterCycleKeepsQueue(step: (TaskState, CycleResult), checks: nat, pollInterval: int, batchMaxRows: int)
    requires WellFormed(step.0.queue, step.0.queriers) && |step.0.queue| > 0
    ensures var r := AfterCycle(step, checks, pollInterval, batchMaxRows);
      && WellFormed(r.0.queue, r.0.queriers) && |r.0.queue| > 0
      && multiset(r.0.queue) == multiset(step.0.queue)
    decreases checks, 2
  {
    if !step.1.Return? {
      PollKeepsQueue(step.0, checks, pollInterval, batchMaxRows);
    }
  }

  /** Whatever `poll` returns, every querier's cursor has only moved forward. */
  lemma {:induction false} PollAdvances(s: TaskState, checks: nat, pollInterval: int, batchMaxRows: int)
    requires WellFormed(s.queue, s.queriers) && |s.queue| > 0
    ensures Advanced(s.queriers, PollRun(s, checks, pollInterval, batchMaxRows).0.queriers)
    decreases checks, 1
  {
    if checks == 0 {
      RequeueHeadAdvances(s);
      assert PollRun(s, checks, pollInterval, batchMaxRows).0 == Shutdown(s);
    } else {
      CycleKeepsQueue(s, pollInterval, batchMaxRows);
      CycleAdvances(s, pollInterval, batchMaxRows);
      var step := CycleStep(s, pollInterval, batchMaxRows);
      if !step.1.Return? {
        AfterCycleAdvances(step, checks - 1, pollInterval, batchMaxRows);
        AdvancedTransitive(s.queriers, step.0.queriers, AfterCycle(step, checks - 1, pollInterval, batchMaxRows).0.queriers);
      }
    }
  }

  lemma {:induction false} AfterCycleAdvances(step: (TaskState, CycleResult), checks: nat, pollInterval: int, batchMaxRows: int)
    requires WellFormed(step.0.queue, step.0.queriers) && |step.0.queue| > 0 && !step.1.Return?
    ensures Advanced(step.0.queriers, AfterCycle(step, checks, pollInterval, batchMaxRows).0.queriers)
    decreases checks, 2
  {
    PollAdvances(step.0, checks, pollInterval, batchMaxRows);
  }

  /** A batch `poll` returns is non-empty, at most `batchMaxRows` long, and consecutive rows of one querier. */
  lemma {:induction false} PollBatch(s: TaskState, checks: nat, pollInterval: int, batchMaxRows: int)
    requires WellFormed(s.queue, s.queriers) && |s.queue| > 0
    ensures var out := PollRun(s, checks, pollInterval, batchMaxRows).1;
      out.Records? ==> 0 < |out.records| <= batchMaxRows && TakenFrom(out.records, s.queriers)
    decreases checks, 1
  {
    if checks > 0 {
      var step := CycleStep(s, pollInterval, batchMaxRows);
      var out := PollRun(s, checks, pollInterval, batchMaxRows).1;
      assert PollRun(s, checks, pollInterval, batchMaxRows) == AfterCycle(step, checks - 1, pollInterval, batchMaxRows);
      if step.1.Return? {
        assert out == step.1.outcome;
        if out.Records? {
          CycleBatch(s, pollInterval, batchMaxRows);
          var h := s.queue[0];
          assert s.queriers[h].script[0..] == s.queriers[h].script;
          assert Begins(RowsOf(out.records), s.queriers[h].script[0..]);
        }
      } else {
        CycleKeepsQueue(s, pollInterval, batchMaxRows);
        CycleAdvances(s, pollInterval, batchMaxRows);
        AfterCycleBatch(step, checks - 1, pollInterval, batchMaxRows);
        if out.Records? {
          TakenFromAdvanced(out.records, s.queriers, step.0.queriers);
        }
      }
    }
  }

  lemma {:induction false} AfterCycleBatch(step: (TaskState, CycleResult), checks: nat, pollInterval: int, batchMaxRows: int)
    requires WellFormed(step.0.queue, step.0.queriers) && |step.0.queue| > 0 && !step.1.Return?
    ensures var out := AfterCycle(step, checks, pollInterval, batchMaxRows).1;
      out.Records? ==> 0 < |out.records| <= batchMaxRows && TakenFrom(out.records, step.0.queriers)
    decreases checks, 2
  {
    PollBatch(step.0, checks, pollInterval, batchMaxRows);
  }

  /** After a stop `poll` returns no records, has closed the resources and left no queued querier mid-query. */
  lemma {:induction false} PollStopped(s: TaskState, checks: nat, pollInterval: int, batchMaxRows: int)
    requires WellFormed(s.queue, s.queriers) && |s.queue| > 0
    ensures var r := PollRun(s, checks, pollInterval, batchMaxRows);
      r.2 ==>
        && r.1 == NoRecords && !r.0.providerOpen && !r.0.dialectOpen
        && forall i :: 0 <= i < |r.0.queue| ==> !r.0.queriers[r.0.queue[i]].querying
    decreases checks, 1
  {
    if checks == 0 {
      RequeueHeadKeepsQueue(s);
      assert PollRun(s, checks, pollInterval, batchMaxRows).0 == Shutdown(s);
    } else {
      var step := CycleStep(s, pollInterval, batchMaxRows);
      if !step.1.Return? {
        CycleKeepsQueue(s, pollInterval, batchMaxRows);
        AfterCycleStopped(step, checks - 1, pollInterval, batchMaxRows);
      }
    }
  }

  lemma {:induction false} AfterCycleStopped(step: (TaskState, CycleResult), checks: nat, pollInterval: int, batchMaxRows: int)
    requires WellFormed(step.0.queue, step.0.queriers) && |step.0.queue| > 0 && !step.1.Return?
    ensures var r := AfterCycle(step, checks, pollInterval, batchMaxRows);
      r.2 ==>
        && r.1 == NoRecords && !r.0.providerOpen && !r.0.dialectOpen
        && forall i :: 0 <= i < |r.0.queue| ==> !r.0.queriers[r.0.queue[i]].querying
    decreases checks, 2
  {
    PollStopped(step.0, checks, pollInterval, batchMaxRows);
  }

  /** A rethrown error leaves the resources closed; a return without a stop or an error leaves them as they were. */
  lemma {:induction false} PollResources(s: TaskState, checks: nat, pollInterval: int, batchMaxRows: int)
    requires Scheduled(s)
    ensures var r := PollRun(s, checks, pollInterval, batchMaxRows);
      && (r.1.Raised? ==> !r.2 && !r.0.providerOpen && !r.0.dialectOpen)
      && (!r.2 && !r.1.Raised? ==> r.0.providerOpen == s.providerOpen && r.0.dialectOpen == s.dialectOpen)
    decreases checks, 1
  {
    if checks > 0 {
      CycleResources(s, pollInterval, batchMaxRows);
      AfterCycleResources(CycleStep(s, pollInterval, batchMaxRows), checks - 1, pollInterval, batchMaxRows);
    }
  }

  lemma {:induction false} AfterCycleResources(step: (TaskState, CycleResult), checks: nat, pollInterval: int, batchMaxRows: int)
    requires Scheduled(step.0)
    requires step.1 == Return(Raised) ==> !step.0.providerOpen && !step.0.dialectOpen
    ensures var r := AfterCycle(step, checks, pollInterval, batchMaxRows);
      && (r.1.Raised? ==> !r.2 && !r.0.providerOpen && !r.0.dialectOpen)
      && (!r.2 && !r.1.Raised? ==> r.0.providerOpen == step.0.providerOpen && r.0.dialectOpen == step.0.dialectOpen)
    decreases checks, 2
  {
    if !step.1.Return? {
      PollResources(step.0, checks, pollInterval, batchMaxRows);
    }
  }

  // -----------------------------------------------------------------------
  // The steps of `start` and `poll` as code
  // -----------------------------------------------------------------------

  /** The partitions `start` asks the offset storage for, table by table. */
  method RequestPartitions(queryMode: QueryMode, tables: seq<string>) returns (partitions: seq<Partition>)
    ensures partitions == RequestedPartitions(queryMode, tables)
  {
    if queryMode == Query {
      return [QueryPartition];
    }
    partitions := [];
    for t := 0 to |tables|
      invariant partitions == RequestedPartitions(Table, tables[..t])
    {
      assert tables[..t + 1][..t] == tables[..t];
      partitions := partitions + PossibleTablePartitions(tables[t]);
    }
    assert tables[..|tables|] == tables;
  }

  /** The body of `start`'s loop for one table or query. */
  method BuildQuerier(cfg: TaskConfig, queryMode: QueryMode, offsets: Option<map<Partition, StoredOffset>>,
                      describe: string -> Columns, source: string)
    returns (r: Result<QuerierConfig, StartError>)
    ensures r == QuerierFor(cfg, queryMode, offsets, describe, source)
  {
    if queryMode == Table && cfg.validateNonNulls {
      var check := ValidateNonNullable(cfg.mode, source, cfg.incrementingColumn, cfg.timestampColumns,
                                       describe(source));
      if check.Some? {
        return Failure(check.value);
      }
    }
    var offset: Option<StoredOffset> := None;
    if offsets.Some? {
      offset := FindOffset(CandidatePartitions(queryMode, source), offsets.value);
    }
    r := MakeQuerier(cfg, queryMode, source, offset);
  }

  /** The loop of `start`: one querier per source, in order, queued as it is built, up to the first failure. */
  method BuildQueriers(cfg: TaskConfig, queryMode: QueryMode, offsets: Option<map<Partition, StoredOffset>>,
                       env: Environment, sources: seq<string>)
    returns (built: seq<Querier>, order: seq<nat>, err: Option<StartError>)
    ensures |built| <= |sources| && WellFormed(order, built)
    ensures forall k :: 0 <= k < |order| ==> order[k] == k
    ensures forall k :: 0 <= k < |built| ==>
      && QuerierFor(cfg, queryMode, offsets, env.describe, sources[k]).Success?
      && built[k] == NewQuerier(QuerierFor(cfg, queryMode, offsets, env.describe, sources[k]).value, env)
    ensures err.None? <==> |built| == |sources|
    ensures err.Some? ==> QuerierFor(cfg, queryMode, offsets, env.describe, sources[|built|]) == Failure(err.value)
  {
    built, order := [], [];
    for k := 0 to |sources|
      invariant |built| == k == |order|
      invariant forall j :: 0 <= j < k ==> order[j] == j && built[j].lastUpdate == 0 && !built[j].querying
      invariant forall j :: 0 <= j < k ==>
        && QuerierFor(cfg, queryMode, offsets, env.describe, sources[j]).Success?
        && built[j] == NewQuerier(QuerierFor(cfg, queryMode, offsets, env.describe, sources[j]).value, env)
    {
      var made := BuildQuerier(cfg, queryMode, offsets, env.describe, sources[k]);
      if made.Failure? {
        return built, order, Some(made.error);
      }
      built := built + [NewQuerier(made.value, env)];
      InsertLatestAppends(order, k, built);
      order := Insert(order, k, built);
    }
    return built, order, None;
  }

  /**
   * The row loop of `poll`: opens the query if needed, then asks the cursor
   * for rows until the batch is full or the cursor says it is done or fails.
   */
  method PullRows(q: Querier, batchMaxRows: int) returns (q': Querier, results: seq<SourceRecord>, end: PullEnd)
    ensures var p := Pull(q.script, batchMaxRows);
      && results == p.records && end == p.end
      && q' == q.(querying := true, script := q.script[p.consumed..])
  {
    results := [];
    var consumed := 0;
    assert q.script[0..] == q.script;
    while |results| < batchMaxRows && consumed < |q.script| && q.script[consumed].Row?
      invariant consumed == |results| <= |q.script|
      invariant Pull(q.script, batchMaxRows) == Continue(results, Pull(q.script[consumed..], batchMaxRows - consumed))
      decreases |q.script| - consumed
    {
      PullAfterRow(q.script, batchMaxRows, results, consumed);
      results := results + [q.script[consumed].record];
      consumed := consumed + 1;
    }
    PullStopsAt(q.script, batchMaxRows, results, consumed);
    if |results| >= batchMaxRows {
      end := Filled;
    } else if consumed == |q.script| {
      end := Exhausted;
    } else {
      end := EndOf(q.script[consumed]);
      consumed := consumed + 1;
    }
    q' := q.(querying := true, script := q.script[consumed..]);
  }

  class JdbcSourceTask {
    /** The queriers `start` created, indexed in creation order. */
    var queriers: seq<Querier>
    /** `tableQueue`: indices into `queriers`, the head first. */
    var queue: seq<nat>
    /** `time.milliseconds()`: advanced by the task's own sleeps. */
    var now: int
    var pollInterval: int
    var batchMaxRows: int
    /** Whether the cached connection provider and the dialect are still open. */
    var providerOpen: bool
    var dialectOpen: bool

    predicate Valid()
      reads this
    {
      WellFormed(queue, queriers)
    }

    function State(): TaskState
      reads this
    {
      TaskState(queriers, queue, now, providerOpen, dialectOpen)
    }

    constructor (startTime: int)
      ensures Valid() && queriers == [] && queue == [] && now == startTime
      ensures !providerOpen && !dialectOpen
    {
      queriers := [];
      queue := [];
      now := startTime;
      pollInterval := 0;
      batchMaxRows := 0;
      providerOpen := false;
      dialectOpen := false;
      assert WellFormed([], []);
    }

    /**
     * `start`: opens the dialect and the connection provider, checks that
     * exactly one of tables and query is set, reads the stored offsets, then
     * builds and queues one querier per source in order, stopping at the
     * first source whose check or configuration fails.
     */
    method Start(cfg: TaskConfig, env: Environment) returns (err: Option<StartError>)
      requires queriers == [] && queue == []
      modifies this
      ensures Valid() && now == old(now)
      ensures providerOpen && dialectOpen
      ensures pollInterval == cfg.pollInterval && batchMaxRows == cfg.batchMaxRows
      ensures forall k :: 0 <= k < |queue| ==> queue[k] == k
      ensures SelectSources(cfg).Failure? ==> err == Some(TablesXorQuery) && queriers == []
      ensures SelectSources(cfg).Success? ==>
        var queryMode := SelectSources(cfg).value.0;
        var sources := SelectSources(cfg).value.1;
        var offsets := OffsetsFor(cfg, queryMode, env.stored);
        && |queriers| <= |sources|
        && (forall k :: 0 <= k < |queriers| ==>
              && QuerierFor(cfg, queryMode, offsets, env.describe, sources[k]).Success?
              && queriers[k] == NewQuerier(QuerierFor(cfg, queryMode, offsets, env.describe, sources[k]).value, env))
        && (err.None? <==> |queriers| == |sources|)
        && (err.Some? ==> QuerierFor(cfg, queryMode, offsets, env.describe, sources[|queriers|]) == Failure(err.value))
    {
      pollInterval := cfg.pollInterval;
      batchMaxRows := cfg.batchMaxRows;
      dialectOpen := true;
      providerOpen := true;
      var selected := SelectSources(cfg);
      if selected.Failure? {
        return Some(selected.error);
      }
      var queryMode := selected.value.0;
      var sources := selected.value.1;

      var offsets: Option<map<Partition, StoredOffset>> := None;
      if UsesStoredOffsets(cfg.mode) {
        var partitions := RequestPartitions(queryMode, cfg.tables);
        offsets := Some(ReadOffsets(env.stored, partitions));
      }

      var built, order;
      built, order, err := BuildQueriers(cfg, queryMode, offsets, env, sources);
      queriers, queue := built, order;
    }

    /** `resetAndRequeueHead`: the head goes back into the queue, reset at the current time. */
    method ResetAndRequeueHead(expectedHead: nat)
      requires Valid() && |queue| > 0 && queue[0] == expectedHead
      modifies this`queriers, this`queue
      ensures State() == RequeueHead(old(State()))
      ensures Valid() && multiset(queue) == multiset(old(queue))
      ensures forall i :: 0 <= i < |queue| ==> !queriers[queue[i]].querying
    {
      RequeueHeadKeepsQueue(State());
      var h := queue[0];
      queriers := queriers[h := Reset(queriers[h], now)];
      queue := Insert(queue[1..], h, queriers);
    }

    /** `closeResources`: both are released; a failure to close is logged and swallowed. */
    method CloseResources()
      modifies this`providerOpen, this`dialectOpen
      ensures !providerOpen && !dialectOpen
    {
      providerOpen := false;
      dialectOpen := false;
    }

    /** The head querier's turn: one batch of rows, then requeueing or closing as its end demands. */
    method TakeTurn() returns (c: CycleResult)
      requires Valid() && |queue| > 0
      modifies this`queriers, this`queue, this`providerOpen, this`dialectOpen
      ensures (State(), c) == Batch(old(State()), batchMaxRows)
      ensures Valid()
    {
      ghost var s0 := State();
      var h := queue[0];
      var q := queriers[h];
      var q', results, end := PullRows(q, batchMaxRows);
      if end == Exhausted {
        q' := q'.(postRuns := q'.postRuns + 1);  // doPostProcessing
      }
      ghost var p := Pull(q.script, batchMaxRows);
      assert q' == AfterBatch(q, p);
      HeadUpdateKeepsWellFormed(queue, queriers, q');
      queriers := queriers[h := q'];
      ghost var pulled := State();
      if end != Filled {
        ResetAndRequeueHead(h);
        assert State() == RequeueHead(pulled);
      }
      if end == SqlError {
        return Return(NoRecords);
      }
      if end == Failed {
        CloseResources();
        return Return(Raised);
      }
      if results == [] {
        return Again;
      }
      return Return(Records(results));
    }

    /** One pass of the loop in `poll` while the task is running. */
    method Cycle() returns (c: CycleResult)
      requires Valid() && |queue| > 0
      modifies this
      ensures (State(), c) == CycleStep(old(State()), pollInterval, batchMaxRows)
      ensures pollInterval == old(pollInterval) && batchMaxRows == old(batchMaxRows)
      ensures Valid()
    {
      ghost var s0 := State();
      var h := queue[0];
      var q := queriers[h];
      if !q.querying {
        if !q.ready {
          ResetAndRequeueHead(h);
          now := now + pollInterval;
          assert State() == RequeueHead(s0).(now := s0.now + pollInterval);
          return Again;
        }
        var sleepMs := SleepMs(q.lastUpdate, pollInterval, now);
        if sleepMs > 0 {
          now := now + sleepMs;
          return Again;
        }
      }
      c := TakeTurn();
      assert CycleStep(s0, pollInterval, batchMaxRows) == Batch(s0, batchMaxRows);
    }

    /** The end of `poll` once the running flag reads false: requeue the head and close the resources. */
    method Stop()
      requires Valid() && |queue| > 0
      modifies this`queriers, this`queue, this`providerOpen, this`dialectOpen
      ensures State() == Shutdown(old(State()))
      ensures Valid()
    {
      ResetAndRequeueHead(queue[0]);
      CloseResources();
    }

    /**
     * `poll`: runs passes of its loop while the running flag reads true.
     * The flag reads true `checksBeforeStop` times and false after that,
     * standing for a `stop` from another thread.
     */
    method Poll(checksBeforeStop: nat) returns (out: PollOutcome, stopped: bool)
      requires Valid() && |queue| > 0
      modifies this
      ensures (State(), out, stopped) == PollRun(old(State()), checksBeforeStop, pollInterval, batchMaxRows)
      ensures pollInterval == old(pollInterval) && batchMaxRows == old(batchMaxRows)
      ensures Valid()
    {
      ghost var s0 := State();
      var checks := 0;
      while checks < checksBeforeStop
        invariant checks <= checksBeforeStop && Valid() && |queue| > 0
        invariant pollInterval == old(pollInterval) && batchMaxRows == old(batchMaxRows)
        invariant PollRun(s0, checksBeforeStop, pollInterval, batchMaxRows)
               == PollRun(State(), checksBeforeStop - checks, pollInterval, batchMaxRows)
        decreases checksBeforeStop - checks
      {
        ghost var before := State();
        var c := Cycle();
        assert PollRun(before, checksBeforeStop - checks, pollInterval, batchMaxRows)
            == AfterCycle((State(), c), checksBeforeStop - checks - 1, pollInterval, batchMaxRows);
        if c.Return? {
          return c.outcome, false;
        }
        assert AfterCycle((State(), c), checksBeforeStop - checks - 1, pollInterval, batchMaxRows)
            == PollRun(State(), checksBeforeStop - checks - 1, pollInterval, batchMaxRows);
        checks := checks + 1;
      }
      Stop();
      return NoRecords, true;
    }
  }
}
