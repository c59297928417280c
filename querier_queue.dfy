/**
 * The scheduler's view of a table querier and of the priority queue that
 * holds them: what a querier's cursor answers, how many rows one poll pulls,
 * and the queue ordered by the time each querier last finished.
 */
module QuerierQueue {
  import opened TaskSetup

  /** A record the task hands to the framework. */
  datatype SourceRecord = SourceRecord(source: string, row: int)

  /** One answer of a querier's cursor to `next()` (and, for a row, `extractRecord()`). */
  datatype Step =
    | Row(record: SourceRecord)
    | End            // next() returns false: the current query is exhausted
    | SqlFailure     // SQLException
    | OtherFailure   // any other throwable

  /**
   * A querier as the poll loop uses it: whether a query is open, when it
   * was last reset, what its pre-processing answers, and what its cursor
   * will answer from now on, across this query and the ones after it.
   */
  datatype Querier = Querier(
    config: QuerierConfig,
    querying: bool,
    lastUpdate: int,
    ready: bool,
    script: seq<Step>,
    postRuns: nat)

  /** `reset(now)`: closes the query and stamps the time. */
  function Reset(q: Querier, now: int): Querier
  {
    q.(querying := false, lastUpdate := now)
  }

  // -----------------------------------------------------------------------
  // Pulling one batch
  // -----------------------------------------------------------------------

  /** How the row loop of one poll ended. */
  datatype PullEnd = Filled | Exhausted | SqlError | Failed

  datatype Pulled = Pulled(records: seq<SourceRecord>, end: PullEnd, consumed: nat)

  function Max0(n: int): nat { if n < 0 then 0 else n }

  /**
   * `while (results.size() < batchMaxRows && (hadNext = querier.next()))`:
   * the records taken with `room` left, how the loop ended and how many
   * cursor answers it used.
   */
  function Pull(script: seq<Step>, room: int): (p: Pulled)
    ensures |p.records| <= p.consumed <= |script|
    decreases |script|
  {
    if room <= 0 then Pulled([], Filled, 0)
    else if script == [] then Pulled([], Exhausted, 0)
    else match script[0]
      case End => Pulled([], Exhausted, 1)
      case SqlFailure => Pulled([], SqlError, 1)
      case OtherFailure => Pulled([], Failed, 1)
      case Row(r) =>
        var rest := Pull(script[1..], room - 1);
        Pulled([r] + rest.records, rest.end, rest.consumed + 1)
  }

  /**
   * What a pull took: its records are the cursor's first answers, all rows;
   * it stopped on the size bound with exactly `room` records, or on the
   * first answer that was not a row (or on the end of the cursor) with fewer.
   */
  lemma {:induction false} PullShape(script: seq<Step>, room: int)
    ensures var p := Pull(script, room);
      && (forall i :: 0 <= i < |p.records| ==> script[i] == Row(p.records[i]))
      && (p.end == Filled ==> |p.records| == Max0(room) && p.consumed == |p.records|)
      && (p.end != Filled ==> |p.records| < room)
      && (p.end == Exhausted ==>
            (p.consumed == |p.records| == |script|) || (p.consumed == |p.records| + 1 && script[|p.records|] == End))
      && (p.end == SqlError ==> p.consumed == |p.records| + 1 && script[|p.records|] == SqlFailure)
      && (p.end == Failed ==> p.consumed == |p.records| + 1 && script[|p.records|] == OtherFailure)
    decreases |script|
  {
    if room > 0 && script != [] && script[0].Row? {
      PullShape(script[1..], room - 1);
    }
  }

  /** A pull that had already taken `taken` before going on as `rest`. */
  function Continue(taken: seq<SourceRecord>, rest: Pulled): Pulled
  {
    Pulled(taken + rest.records, rest.end, |taken| + rest.consumed)
  }

  /** A row at the front of the cursor is taken when there is room. */
  lemma PullTakesRow(script: seq<Step>, room: int)
    requires room > 0 && script != [] && script[0].Row?
    ensures Pull(script, room) == Continue([script[0].record], Pull(script[1..], room - 1))
  {
  }

  /** How the row loop ends on a cursor answer that is not a row. */
  function EndOf(answer: Step): (e: PullEnd)
    requires !answer.Row?
    ensures e != Filled
    ensures e == Exhausted <==> answer == End
  {
    match answer
    case End => Exhausted
    case SqlFailure => SqlError
    case OtherFailure => Failed
  }

  /** After `at` rows were taken, one more row is taken when there is room. */
  lemma PullAfterRow(script: seq<Step>, room: int, taken: seq<SourceRecord>, at: nat)
    requires at < |script| && script[at].Row? && at < room
    requires Pull(script, room) == Continue(taken, Pull(script[at..], room - at))
    ensures Pull(script, room) == Continue(taken + [script[at].record], Pull(script[at + 1..], room - at - 1))
  {
    PullTakesRow(script[at..], room - at);
    assert script[at..][1..] == script[at + 1..];
    var rest := Pull(script[at + 1..], room - at - 1);
    assert taken + ([script[at].record] + rest.records) == (taken + [script[at].record]) + rest.records;
  }

  /** After `at` rows were taken, the loop stops on a full batch, the end of the cursor, or an answer that is not a row. */
  lemma PullStopsAt(script: seq<Step>, room: int, taken: seq<SourceRecord>, at: nat)
    requires at == |taken| <= |script|
    requires Pull(script, room) == Continue(taken, Pull(script[at..], room - at))
    requires room <= at || at == |script| || !script[at].Row?
    ensures var p := Pull(script, room);
      && p.records == taken
      && (room <= at ==> p.end == Filled && p.consumed == at)
      && (at < room && at == |script| ==> p.end == Exhausted && p.consumed == at)
      && (at < room && at < |script| ==> !script[at].Row? && p.end == EndOf(script[at]) && p.consumed == at + 1)
  {
    assert taken + [] == taken;
  }

  /** A batch holds at most `batchMaxRows` records, and exactly that many when the loop stopped on the size bound. */
  lemma PullBatchSize(script: seq<Step>, batchMaxRows: int)
    ensures var p := Pull(script, batchMaxRows);
      |p.records| <= Max0(batchMaxRows) && (p.end == Filled <==> |p.records| == Max0(batchMaxRows))
  {
    PullShape(script, batchMaxRows);
  }

  // -----------------------------------------------------------------------
  // The queue: querier indices ordered by last update, ties in arrival order
  // -----------------------------------------------------------------------

  predicate InRange(queue: seq<nat>, qs: seq<Querier>)
  {
    forall i :: 0 <= i < |queue| ==> queue[i] < |qs|
  }

  predicate Distinct(queue: seq<nat>)
  {
    forall i, j :: 0 <= i < j < |queue| ==> queue[i] != queue[j]
  }

  predicate SortedBy(queue: seq<nat>, qs: seq<Querier>)
    requires InRange(queue, qs)
  {
    forall i, j :: 0 <= i < j < |queue| ==> qs[queue[i]].lastUpdate <= qs[queue[j]].lastUpdate
  }

  /** Where `add` places a querier whose last update is `key`: after every entry that is not later. */
  function Position(queue: seq<nat>, key: int, qs: seq<Querier>): (k: nat)
    requires InRange(queue, qs)
    ensures k <= |queue|
    decreases |queue|
  {
    if queue == [] || key < qs[queue[0]].lastUpdate then 0
    else 1 + Position(queue[1..], key, qs)
  }

  /** The position splits the queue into the entries not later than `key` and the first later one. */
  lemma {:induction false} PositionSplits(queue: seq<nat>, key: int, qs: seq<Querier>)
    requires InRange(queue, qs)
    ensures var k := Position(queue, key, qs);
      && (forall i :: 0 <= i < k ==> qs[queue[i]].lastUpdate <= key)
      && (k < |queue| ==> key < qs[queue[k]].lastUpdate)
    decreases |queue|
  {
    if queue != [] && qs[queue[0]].lastUpdate <= key {
      PositionSplits(queue[1..], key, qs);
    }
  }

  /** `PriorityQueue.add`: behind every querier that is not later, ahead of every one that is. */
  function Insert(queue: seq<nat>, id: nat, qs: seq<Querier>): (r: seq<nat>)
    requires InRange(queue, qs) && id < |qs|
    ensures InRange(r, qs) && |r| == |queue| + 1
  {
    var k := Position(queue, qs[id].lastUpdate, qs);
    queue[..k] + [id] + queue[k..]
  }

  /** Adding puts exactly the one new entry into the queue. */
  lemma InsertContents(queue: seq<nat>, id: nat, qs: seq<Querier>)
    requires InRange(queue, qs) && id < |qs|
    ensures var r := Insert(queue, id, qs);
      && multiset(r) == multiset(queue) + multiset{id}
      && (forall x :: x in r <==> x in queue || x == id)
  {
    var k := Position(queue, qs[id].lastUpdate, qs);
    assert queue == queue[..k] + queue[k..];
  }

  /** Adding to a sorted queue keeps it sorted. */
  lemma InsertKeepsSorted(queue: seq<nat>, id: nat, qs: seq<Querier>)
    requires InRange(queue, qs) && id < |qs| && SortedBy(queue, qs)
    ensures SortedBy(Insert(queue, id, qs), qs)
  {
    var key := qs[id].lastUpdate;
    var k := Position(queue, key, qs);
    PositionSplits(queue, key, qs);
    var r := Insert(queue, id, qs);
    forall i, j | 0 <= i < j < |r|
      ensures qs[r[i]].lastUpdate <= qs[r[j]].lastUpdate
    {
      if j < k {
      } else if j == k {
        assert r[j] == id;
      } else if i < k {
        assert r[j] == queue[j - 1];
      } else if i == k {
        assert r[i] == id && r[j] == queue[j - 1];
        assert key < qs[queue[k]].lastUpdate;
      } else {
        assert r[i] == queue[i - 1] && r[j] == queue[j - 1];
      }
    }
  }

  /** Adding a querier that is not queued keeps the queue free of duplicates. */
  lemma InsertKeepsDistinct(queue: seq<nat>, id: nat, qs: seq<Querier>)
    requires InRange(queue, qs) && id < |qs| && Distinct(queue) && id !in queue
    ensures Distinct(Insert(queue, id, qs))
  {
    var k := Position(queue, qs[id].lastUpdate, qs);
    var r := Insert(queue, id, qs);
    forall i, j | 0 <= i < j < |r|
      ensures r[i] != r[j]
    {
      if i == k {
        assert r[j] == queue[j - 1];
      } else if j == k {
        assert r[i] == queue[i];
      } else {
        var i' := if i < k then i else i - 1;
        var j' := if j < k then j else j - 1;
        assert r[i] == queue[i'] && r[j] == queue[j'] && i' < j';
      }
    }
  }

  /** A querier no earlier than every queued one goes to the back: equal times keep arrival order. */
  lemma {:induction false} InsertLatestAppends(queue: seq<nat>, id: nat, qs: seq<Querier>)
    requires InRange(queue, qs) && id < |qs|
    requires forall i :: 0 <= i < |queue| ==> qs[queue[i]].lastUpdate <= qs[id].lastUpdate
    ensures Insert(queue, id, qs) == queue + [id]
  {
    var k := Position(queue, qs[id].lastUpdate, qs);
    PositionSplits(queue, qs[id].lastUpdate, qs);
    assert k == |queue|;
    assert queue[..k] == queue;
  }

  /** The head of a sorted queue is a querier with the earliest last update. */
  lemma HeadIsEarliest(queue: seq<nat>, qs: seq<Querier>)
    requires InRange(queue, qs) && SortedBy(queue, qs) && |queue| > 0
    ensures forall i :: 0 <= i < |queue| ==> qs[queue[0]].lastUpdate <= qs[queue[i]].lastUpdate
  {
  }

  // -----------------------------------------------------------------------
  // The scheduler's invariant and `resetAndRequeueHead`
  // -----------------------------------------------------------------------

  /**
   * One queue entry per querier, no duplicates, earliest last update first,
   * and no querier other than the head has an open query.
   */
  predicate WellFormed(queue: seq<nat>, qs: seq<Querier>)
  {
    && |queue| == |qs| && InRange(queue, qs) && Distinct(queue) && SortedBy(queue, qs)
    && (forall i :: 1 <= i < |queue| ==> !qs[queue[i]].querying)
  }

  /** `resetAndRequeueHead`: take the head off, reset it at `now`, add it back. */
  function Requeue(queue: seq<nat>, qs: seq<Querier>, now: int): (r: (seq<nat>, seq<Querier>))
    requires InRange(queue, qs) && |queue| > 0
    ensures InRange(r.0, r.1) && |r.0| == |queue| && |r.1| == |qs|
  {
    var h := queue[0];
    var qs' := qs[h := Reset(qs[h], now)];
    (Insert(queue[1..], h, qs'), qs')
  }

  /** Behind the head, the queue is well ordered whatever becomes of the head querier. */
  lemma TailWellFormed(queue: seq<nat>, qs: seq<Querier>, q: Querier)
    requires WellFormed(queue, qs) && |queue| > 0
    ensures var qs' := qs[queue[0] := q];
      && InRange(queue[1..], qs') && Distinct(queue[1..]) && queue[0] !in queue[1..]
      && SortedBy(queue[1..], qs')
      && (forall x :: x in queue[1..] ==> qs'[x] == qs[x] && !qs'[x].querying)
  {
    var h := queue[0];
    var tail := queue[1..];
    var qs' := qs[h := q];
    forall x | x in tail
      ensures x != h && !qs[x].querying
    {
      var j :| 0 <= j < |tail| && tail[j] == x;
      assert queue[j + 1] == x;
    }
    forall i, j | 0 <= i < j < |tail|
      ensures qs'[tail[i]].lastUpdate <= qs'[tail[j]].lastUpdate
    {
      assert tail[i] == queue[i + 1] && tail[j] == queue[j + 1];
      assert tail[i] in tail && tail[j] in tail;
    }
  }

  /** Requeueing keeps the invariant, keeps every querier queued, and leaves no query open. */
  lemma RequeueKeepsWellFormed(queue: seq<nat>, qs: seq<Querier>, now: int)
    requires WellFormed(queue, qs) && |queue| > 0
    ensures var (queue', qs') := Requeue(queue, qs, now);
      && WellFormed(queue', qs')
      && multiset(queue') == multiset(queue)
      && (forall i :: 0 <= i < |queue'| ==> !qs'[queue'[i]].querying)
      && Advanced(qs, qs')
  {
    var h := queue[0];
    var tail := queue[1..];
    var qs' := qs[h := Reset(qs[h], now)];
    TailWellFormed(queue, qs, Reset(qs[h], now));
    InsertKeepsSorted(tail, h, qs');
    InsertKeepsDistinct(tail, h, qs');
    InsertContents(tail, h, qs');
    assert queue == [h] + tail;
    var queue' := Insert(tail, h, qs');
    forall i | 0 <= i < |queue'|
      ensures !qs'[queue'[i]].querying
    {
      assert queue'[i] in queue';
    }
    forall id | 0 <= id < |qs|
      ensures IsSuffix(qs'[id].script, qs[id].script)
    {
      assert qs[id].script[0..] == qs[id].script;
    }
  }

  /** Changing the head querier without touching its last update keeps the invariant. */
  lemma HeadUpdateKeepsWellFormed(queue: seq<nat>, qs: seq<Querier>, q: Querier)
    requires WellFormed(queue, qs) && |queue| > 0 && q.lastUpdate == qs[queue[0]].lastUpdate
    ensures WellFormed(queue, qs[queue[0] := q])
  {
    var qs' := qs[queue[0] := q];
    forall i | 1 <= i < |queue|
      ensures !qs'[queue[i]].querying
    {
      assert queue[i] != queue[0];
    }
  }

  /** `s` is what is left of `t` after some of its first answers were consumed. */
  predicate IsSuffix(s: seq<Step>, t: seq<Step>)
  {
    |s| <= |t| && s == t[|t| - |s|..]
  }

  lemma SuffixTransitive(s: seq<Step>, t: seq<Step>, u: seq<Step>)
    requires IsSuffix(s, t) && IsSuffix(t, u)
    ensures IsSuffix(s, u)
  {
    assert u[|u| - |t|..][|t| - |s|..] == u[|u| - |s|..];
  }

  /** The cursor answers a batch of records stands for. */
  function RowsOf(records: seq<SourceRecord>): (steps: seq<Step>)
    ensures |steps| == |records|
  {
    seq(|records|, i requires 0 <= i < |records| => Row(records[i]))
  }

  /** `script` starts with the answers `steps`. */
  predicate Begins(steps: seq<Step>, script: seq<Step>)
  {
    |steps| <= |script| && script[..|steps|] == steps
  }

  /** Every querier kept its configuration and has only consumed cursor answers. */
  predicate Advanced(before: seq<Querier>, after: seq<Querier>)
  {
    && |after| == |before|
    && forall id :: 0 <= id < |before| ==>
         after[id].config == before[id].config && IsSuffix(after[id].script, before[id].script)
  }

  lemma AdvancedTransitive(a: seq<Querier>, b: seq<Querier>, c: seq<Querier>)
    requires Advanced(a, b) && Advanced(b, c)
    ensures Advanced(a, c)
  {
    forall id | 0 <= id < |a|
      ensures IsSuffix(c[id].script, a[id].script)
    {
      SuffixTransitive(c[id].script, b[id].script, a[id].script);
    }
  }

  /** `records` are consecutive answers of one querier's cursor, from some point on. */
  ghost predicate TakenFrom(records: seq<SourceRecord>, qs: seq<Querier>)
  {
    exists id, n :: 0 <= id < |qs| && 0 <= n <= |qs[id].script| && Begins(RowsOf(records), qs[id].script[n..])
  }

  /** Records taken from what is left of the cursors were taken from the cursors as they were. */
  lemma TakenFromAdvanced(records: seq<SourceRecord>, before: seq<Querier>, after: seq<Querier>)
    requires Advanced(before, after) && TakenFrom(records, after)
    ensures TakenFrom(records, before)
  {
    var id, n :| 0 <= id < |after| && 0 <= n <= |after[id].script| && Begins(RowsOf(records), after[id].script[n..]);
    var skipped := |before[id].script| - |after[id].script|;
    assert before[id].script[skipped + n..] == after[id].script[n..];
  }
}
