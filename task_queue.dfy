/**
 * The priority task queue: a heap of `(-priority, task)` entries, the `running_tasks` and `completed_tasks`
 * dictionaries and the statistics counters. One step of a worker coroutine is one atomic method; the function
 * a task runs is an oracle from a call to its outcome. Task ids (`uuid4` strings) are drawn from a counter.
 */
module TaskQueue {
  import opened Wrappers
  import opened Text

  datatype TaskStatus = Pending | Running | Completed | Failed | Cancelled

  /** The final statuses, those of `completed_tasks`. */
  predicate IsFinal(s: TaskStatus) {
    s == Completed || s == Failed || s == Cancelled
  }

  /** A Python value passed to or returned by a task function. */
  datatype Value = IntValue(i: int) | StrValue(s: string) | BoolValue(b: bool) | NoValue

  /** `task_func(*args, **kwargs)`: the function, by name, and its arguments. */
  datatype Call = Call(func: string, args: seq<Value>, kwargs: map<string, Value>)

  /** How running a task function ends. */
  datatype Execution = Returned(value: Value) | Raised(message: string)

  /** `TaskInfo`; times are seconds, `result` is `NoValue` until it completes. */
  datatype TaskInfo = TaskInfo(
    id: nat, name: string, status: TaskStatus, createdAt: real,
    startedAt: Option<real>, completedAt: Option<real>, error: Option<string>, result: Value,
    priority: int, call: Option<Call>)

  datatype Stats = Stats(total: nat, completed: nat, failed: nat, cancelled: nat)

  /** What `get_queue_stats()` reports. */
  datatype QueueStats = QueueStats(pendingTasks: nat, runningTasks: nat, completedTasks: nat, workers: nat, stats: Stats)

  /** What one pass of a worker's loop did. */
  datatype WorkerStep =
    | NotRunning                            // the loop condition `is_running` is false
    | QueueEmpty                            // `get()` would wait
    | Dropped(id: nat)                      // the entry's task was cancelled while queued
    | Executed(id: nat, status: TaskStatus) // its function ran and it was moved to `completed_tasks`

  /** `_execute_task`: a task without a function fails with `NotImplementedError`. */
  function Execute(call: Option<Call>, exec: Call -> Execution): (r: Execution)
    ensures call.None? ==> r == Raised("任务函数未定义")
    ensures call.Some? ==> r == exec(call.value)
  {
    match call
    case None => Raised("任务函数未定义")
    case Some(c) => exec(c)
  }

  /** The position of an entry with the smallest key, the one the min-heap hands out next. */
  function MinKeyIndex(q: seq<(int, nat)>): (k: nat)
    requires |q| > 0
    ensures k < |q|
    ensures forall j :: 0 <= j < |q| ==> q[k].0 <= q[j].0
    decreases |q|
  {
    if |q| == 1 then 0
    else
      var k := MinKeyIndex(q[..|q| - 1]);
      assert forall j :: 0 <= j < |q| - 1 ==> q[..|q| - 1][j] == q[j];
      if q[|q| - 1].0 < q[k].0 then |q| - 1 else k
  }

  /** The entry smallest in key order has the highest priority among the queued tasks. */
  lemma HighestPriorityFirst(q: seq<(int, nat)>, prio: map<nat, int>)
    requires |q| > 0
    requires forall j :: 0 <= j < |q| ==> q[j].1 in prio && q[j].0 == -prio[q[j].1]
    ensures forall j :: 0 <= j < |q| ==> prio[q[j].1] <= prio[q[MinKeyIndex(q)].1]
  {
  }

  /**
   * `heapq.heappush` of an entry `(-priority, task)` as the source's priority queue performs it: the new entry
   * moves up past every parent with a larger key. On equal keys the tuple comparison goes on to the two task
   * records, which define no ordering, and raises `TypeError` (`None` here).
   */
  function SiftUpAsWritten(h: seq<(int, nat)>, pos: nat): (r: Option<seq<(int, nat)>>)
    requires pos < |h|
    ensures r.Some? ==> |r.value| == |h| && multiset(r.value) == multiset(h)
    decreases pos
  {
    if pos == 0 then Some(h)
    else
      var parent := (pos - 1) / 2;
      if h[pos].0 < h[parent].0 then SiftUpAsWritten(h[pos := h[parent]][parent := h[pos]], parent)
      else if h[pos].0 == h[parent].0 then None
      else Some(h)
  }

  function HeapPushAsWritten(h: seq<(int, nat)>, e: (int, nat)): Option<seq<(int, nat)>> {
    SiftUpAsWritten(h + [e], |h|)
  }

  /** Sifting up an entry whose key is the smallest in the heap and equal to the root's raises. */
  lemma {:induction false} SiftUpTieRaises(h: seq<(int, nat)>, pos: nat)
    requires 0 < pos < |h|
    requires h[0].0 == h[pos].0
    requires forall j :: 0 <= j < |h| ==> h[pos].0 <= h[j].0
    ensures SiftUpAsWritten(h, pos) == None
    decreases pos
  {
    var parent := (pos - 1) / 2;
    if h[pos].0 < h[parent].0 {
      var h' := h[pos := h[parent]][parent := h[pos]];
      assert h'[parent] == h[pos];
      SiftUpTieRaises(h', parent);
    }
  }

  /**
   * Pushing an entry with the same key as the heap's smallest raises: with every task of a batch at priority 1,
   * the second one queued onto an empty queue is refused this way.
   */
  lemma PushAtTopKeyRaises(h: seq<(int, nat)>, e: (int, nat))
    requires |h| > 0 && h[0].0 == e.0
    requires forall j :: 0 <= j < |h| ==> e.0 <= h[j].0
    ensures HeapPushAsWritten(h, e) == None
  {
    SiftUpTieRaises(h + [e], |h|);
  }

  /** The first two tasks of a batch on an empty queue: the first is queued, the second raises. */
  lemma BatchSecondPushRaises(a: nat, b: nat)
    ensures HeapPushAsWritten([], (-1, a)) == Some([(-1, a)])
    ensures HeapPushAsWritten([(-1, a)], (-1, b)) == None
  {
    assert [] + [(-1, a)] == [(-1, a)];
    PushAtTopKeyRaises([(-1, a)], (-1, b));
  }

  /** `q` with its `k`-th entry taken out. */
  function RemoveAt<T>(q: seq<T>, k: nat): (r: seq<T>)
    requires k < |q|
    ensures |r| == |q| - 1
    ensures forall j :: 0 <= j < k ==> r[j] == q[j]
    ensures forall j :: k <= j < |r| ==> r[j] == q[j + 1]
  {
    q[..k] + q[k + 1..]
  }

  /** Some entry of `q` carries task `id`. */
  predicate Queued(q: seq<(int, nat)>, id: nat) {
    exists j :: 0 <= j < |q| && q[j].1 == id
  }

  /** Taking out another task's entry keeps a task queued. */
  lemma RemoveKeepsQueued(q: seq<(int, nat)>, k: nat, id: nat)
    requires k < |q| && Queued(q, id) && q[k].1 != id
    ensures Queued(RemoveAt(q, k), id)
  {
    var j :| 0 <= j < |q| && q[j].1 == id;
    var r := RemoveAt(q, k);
    if j < k {
      assert r[j].1 == id;
    } else {
      assert r[j - 1].1 == id;
    }
  }

  /** `(now - completed_at).total_seconds() > older_than`. */
  predicate Expired(t: TaskInfo, olderThan: real, now: real) {
    t.completedAt.Some? && now - t.completedAt.value > olderThan
  }

  /** The record of a finished run: completed with its result, or failed with the error's text. */
  function Finished(t: TaskInfo, e: Execution, start: real, finish: real): (r: TaskInfo)
    ensures r.id == t.id && r.name == t.name && r.priority == t.priority && r.call == t.call
    ensures r.startedAt == Some(start) && r.completedAt == Some(finish) && IsFinal(r.status)
    ensures e.Returned? ==> r.status == Completed && r.result == e.value
    ensures e.Raised? ==> r.status == Failed && r.error == Some(e.message)
  {
    match e
    case Returned(v) => t.(status := Completed, startedAt := Some(start), completedAt := Some(finish), result := v)
    case Raised(m) => t.(status := Failed, startedAt := Some(start), completedAt := Some(finish), error := Some(m))
  }

  /** The counters after one more run ends as `e`. */
  function Counted(s: Stats, e: Execution): (r: Stats)
    ensures r.total == s.total + 1 && r.cancelled == s.cancelled
    ensures e.Returned? ==> r.completed == s.completed + 1 && r.failed == s.failed
    ensures e.Raised? ==> r.failed == s.failed + 1 && r.completed == s.completed
  {
    if e.Returned? then s.(total := s.total + 1, completed := s.completed + 1)
    else s.(total := s.total + 1, failed := s.failed + 1)
  }

  /** No task is both running and completed; the total counts the three outcomes; every running task is
      pending and queued, under the key `-priority`; every completed one carries a final status and its
      completion time; queue entries carry distinct ids, all already handed out. */
  ghost predicate Consistent(pending: seq<(int, nat)>, running: map<nat, TaskInfo>, completed: map<nat, TaskInfo>,
                             stats: Stats, nextId: nat) {
    running.Keys !! completed.Keys
    && stats.total == stats.completed + stats.failed + stats.cancelled
    && (forall id :: id in running ==> id < nextId && running[id].id == id && running[id].status == Pending && Queued(pending, id))
    && (forall id :: id in completed ==> id < nextId && completed[id].id == id && completed[id].completedAt.Some? && IsFinal(completed[id].status))
    && (forall j :: 0 <= j < |pending| ==> pending[j].1 < nextId)
    && (forall j :: 0 <= j < |pending| && pending[j].1 in running ==> pending[j].0 == -running[pending[j].1].priority)
    && (forall i, j :: 0 <= i < j < |pending| ==> pending[i].1 != pending[j].1)
  }

  /** Dropping the entry of a task that is no longer running keeps the state consistent. */
  lemma DropKeepsConsistent(pending: seq<(int, nat)>, running: map<nat, TaskInfo>, completed: map<nat, TaskInfo>,
                            stats: Stats, nextId: nat, k: nat)
    requires Consistent(pending, running, completed, stats, nextId)
    requires k < |pending|
    ensures Consistent(RemoveAt(pending, k), running - {pending[k].1}, completed, stats, nextId)
  {
    var q := RemoveAt(pending, k);
    var r := running - {pending[k].1};
    forall x | x in r ensures Queued(q, x) {
      RemoveKeepsQueued(pending, k, x);
    }
    forall j | 0 <= j < |q| && q[j].1 in r ensures q[j].0 == -r[q[j].1].priority {
      if j >= k { assert q[j] == pending[j + 1]; }
    }
    forall i, j | 0 <= i < j < |q| ensures q[i].1 != q[j].1 {
      if j >= k {
        if i >= k { assert q[i] == pending[i + 1]; }
        assert q[j] == pending[j + 1];
      }
    }
  }

  /** Moving a dequeued running task to the completed ones, with a final record, keeps the state consistent. */
  lemma FinishKeepsConsistent(pending: seq<(int, nat)>, running: map<nat, TaskInfo>, completed: map<nat, TaskInfo>,
                              stats: Stats, nextId: nat, k: nat, done: TaskInfo, stats': Stats,
                              pending': seq<(int, nat)>, running': map<nat, TaskInfo>, completed': map<nat, TaskInfo>)
    requires Consistent(pending, running, completed, stats, nextId)
    requires k < |pending| && pending[k].1 in running
    requires done.id == pending[k].1 && done.completedAt.Some? && IsFinal(done.status)
    requires stats'.total == stats'.completed + stats'.failed + stats'.cancelled
    requires pending' == RemoveAt(pending, k) && running' == running - {pending[k].1} && completed' == completed[pending[k].1 := done]
    ensures Consistent(pending', running', completed', stats', nextId)
  {
    DropKeepsConsistent(pending, running, completed, stats, nextId, k);
  }

  /** Queueing a fresh pending task under its own id keeps the state consistent. */
  lemma AddKeepsConsistent(pending: seq<(int, nat)>, running: map<nat, TaskInfo>, completed: map<nat, TaskInfo>,
                           stats: Stats, nextId: nat, t: TaskInfo,
                           pending': seq<(int, nat)>, running': map<nat, TaskInfo>, nextId': nat)
    requires Consistent(pending, running, completed, stats, nextId)
    requires t.id == nextId && t.status == Pending
    requires pending' == pending + [(-t.priority, nextId)] && running' == running[nextId := t] && nextId' == nextId + 1
    ensures Consistent(pending', running', completed, stats, nextId')
  {
    var q := pending';
    assert Queued(q, nextId) by { assert q[|q| - 1].1 == nextId; }
    forall x | x in running ensures Queued(q, x) {
      var j :| 0 <= j < |pending| && pending[j].1 == x;
      assert q[j].1 == x;
    }
  }

  /** Moving a running task to the completed ones as cancelled, and counting it, keeps the state consistent. */
  lemma CancelKeepsConsistent(pending: seq<(int, nat)>, running: map<nat, TaskInfo>, completed: map<nat, TaskInfo>,
                              stats: Stats, nextId: nat, id: nat, now: real,
                              running': map<nat, TaskInfo>, completed': map<nat, TaskInfo>, stats': Stats)
    requires Consistent(pending, running, completed, stats, nextId)
    requires id in running
    requires running' == running - {id}
    requires completed' == completed[id := running[id].(status := Cancelled, completedAt := Some(now))]
    requires stats' == stats.(total := stats.total + 1, cancelled := stats.cancelled + 1)
    ensures Consistent(pending, running', completed', stats', nextId)
  {
  }

  /** Forgetting completed tasks keeps the state consistent. */
  lemma ForgetKeepsConsistent(pending: seq<(int, nat)>, running: map<nat, TaskInfo>, completed: map<nat, TaskInfo>,
                              stats: Stats, nextId: nat, kept: map<nat, TaskInfo>)
    requires Consistent(pending, running, completed, stats, nextId)
    requires forall id :: id in kept ==> id in completed && kept[id] == completed[id]
    ensures Consistent(pending, running, kept, stats, nextId)
  {
  }

  class ImprovedTaskQueue {
    const maxWorkers: nat
    const queueMaxSize: nat
    /** The priority queue's entries, in no particular order; a cancelled task's entry stays until dequeued. */
    var pending: seq<(int, nat)>
    var running: map<nat, TaskInfo>
    var completed: map<nat, TaskInfo>
    /** `len(self.workers)`. */
    var workers: nat
    var isRunning: bool
    var stats: Stats
    /** The next fresh task id. */
    var nextId: nat

    ghost predicate Valid()
      reads this
    {
      Consistent(pending, running, completed, stats, nextId)
    }

    constructor (maxWorkers: nat, queueMaxSize: nat)
      ensures Valid()
      ensures this.maxWorkers == maxWorkers && this.queueMaxSize == queueMaxSize
      ensures pending == [] && running == map[] && completed == map[] && workers == 0 && !isRunning
      ensures stats == Stats(0, 0, 0, 0)
    {
      this.maxWorkers := maxWorkers;
      this.queueMaxSize := queueMaxSize;
      pending := [];
      running := map[];
      completed := map[];
      workers := 0;
      isRunning := false;
      stats := Stats(0, 0, 0, 0);
      nextId := 0;
    }

    /** `start()`: a no-op while running; otherwise `max_workers` workers are created. */
    method Start()
      modifies this`isRunning, this`workers
      ensures old(isRunning) ==> isRunning && workers == old(workers)
      ensures !old(isRunning) ==> isRunning && workers == maxWorkers
    {
      if isRunning {
        return;
      }
      isRunning := true;
      workers := maxWorkers;
    }

    /** `stop()`: a no-op while stopped; the worker list is kept. */
    method Stop()
      modifies this`isRunning
      ensures !isRunning
    {
      if !isRunning {
        return;
      }
      isRunning := false;
    }

    /** `add_task(name, task_func, *args, priority=priority, **kwargs)`. */
    method AddTask(name: string, call: Option<Call>, priority: int, now: real) returns (r: Result<nat, string>)
      requires Valid()
      modifies this`pending, this`running, this`nextId
      ensures Valid()
      ensures !isRunning ==> r == Failure("任务队列未运行")
      ensures isRunning && |old(pending)| >= queueMaxSize ==> r == Failure("任务队列已满 (最大容量: " + IntToString(queueMaxSize) + ")")
      ensures r.Failure? ==> pending == old(pending) && running == old(running) && nextId == old(nextId)
      ensures r.Success? <==> isRunning && |old(pending)| < queueMaxSize
      ensures r.Success? ==>
        var id := old(nextId);
        r.value == id && id !in old(running) && id !in completed
        && pending == old(pending) + [(-priority, id)]
        && running == old(running)[id := TaskInfo(id, name, Pending, now, None, None, None, NoValue, priority, call)]
        && nextId == id + 1
    {
      if !isRunning {
        return Failure("任务队列未运行");
      }
      if |pending| >= queueMaxSize {
        return Failure("任务队列已满 (最大容量: " + IntToString(queueMaxSize) + ")");
      }
      var id := nextId;
      var t := TaskInfo(id, name, Pending, now, None, None, None, NoValue, priority, call);
      nextId := nextId + 1;
      pending := pending + [(-priority, id)];
      running := running[id := t];
      AddKeepsConsistent(old(pending), old(running), completed, stats, id, t, pending, running, nextId);
      r := Success(id);
    }

    /**
     * One pass of `_worker`'s loop: take the entry with the smallest key, drop it if its task is no longer
     * running, otherwise run it (started at `start`, finished at `finish`) and move it to
     * `completed_tasks` as completed or failed, counting the outcome.
     */
    method Step(exec: Call -> Execution, start: real, finish: real) returns (s: WorkerStep)
      requires Valid()
      modifies this`pending, this`running, this`completed, this`stats
      ensures Valid()
      ensures !isRunning || old(pending) == [] ==>
        s == (if isRunning then QueueEmpty else NotRunning)
        && pending == old(pending) && running == old(running) && completed == old(completed) && stats == old(stats)
      ensures isRunning && old(pending) != [] ==>
        var k := MinKeyIndex(old(pending));
        var id := old(pending)[k].1;
        pending == RemoveAt(old(pending), k) && running == old(running) - {id}
        && (id !in old(running) ==> s == Dropped(id) && completed == old(completed) && stats == old(stats))
        && (id in old(running) ==>
              var e := Execute(old(running)[id].call, exec);
              var done := Finished(old(running)[id], e, start, finish);
              s == Executed(id, done.status) && completed == old(completed)[id := done] && stats == Counted(old(stats), e))
    {
      if !isRunning {
        return NotRunning;
      }
      if pending == [] {
        return QueueEmpty;
      }
      var k := MinKeyIndex(pending);
      var id := pending[k].1;
      if id !in running {
        DropEntry(k);
        return Dropped(id);
      }
      var done := RunEntry(k, exec, start, finish);
      s := Executed(id, done.status);
    }

    /** The dequeued entry `k` belongs to a cancelled task: it is discarded. */
    method DropEntry(k: nat)
      requires Valid() && k < |pending| && pending[k].1 !in running
      modifies this`pending
      ensures Valid()
      ensures pending == RemoveAt(old(pending), k) && running == old(running) - {old(pending)[k].1}
    {
      DropKeepsConsistent(pending, running, completed, stats, nextId, k);
      assert running - {pending[k].1} == running;
      pending := RemoveAt(pending, k);
    }

    /** The dequeued entry `k` belongs to a running task: it is run and its outcome recorded. */
    method RunEntry(k: nat, exec: Call -> Execution, start: real, finish: real) returns (done: TaskInfo)
      requires Valid() && k < |pending| && pending[k].1 in running
      modifies this`pending, this`running, this`completed, this`stats
      ensures Valid()
      ensures var id := old(pending)[k].1; var e := Execute(old(running)[id].call, exec);
        done == Finished(old(running)[id], e, start, finish)
        && pending == RemoveAt(old(pending), k) && running == old(running) - {id}
        && completed == old(completed)[id := done] && stats == Counted(old(stats), e)
    {
      var id := pending[k].1;
      var e := Execute(running[id].call, exec);
      done := Finished(running[id], e, start, finish);
      pending, running, completed, stats := RemoveAt(pending, k), running - {id}, completed[id := done], Counted(stats, e);
      FinishKeepsConsistent(old(pending), old(running), old(completed), old(stats), nextId, k, done, stats, pending, running, completed);
    }

    /** `get_task_status(task_id)`: the running record first, then the completed one. */
    function GetTaskStatus(id: nat): (r: Option<TaskInfo>)
      requires Valid()
      reads this
      ensures r.Some? <==> id in running || id in completed
      ensures r.Some? ==> r.value.id == id
      ensures r.Some? ==> (r.value.status == Pending <==> id in running)
      ensures r.Some? && id in running ==> r.value == running[id]
    {
      if id in running then Some(running[id])
      else if id in completed then Some(completed[id])
      else None
    }

    /** `get_queue_stats()`. */
    function GetQueueStats(): (r: QueueStats)
      requires Valid()
      reads this
      ensures r.pendingTasks == |pending| && r.runningTasks == |running| && r.completedTasks == |completed|
      ensures r.workers == workers
      ensures r.stats.total == r.stats.completed + r.stats.failed + r.stats.cancelled
    {
      QueueStats(|pending|, |running|, |completed|, workers, stats)
    }

    /** `cancel_task(task_id)`: only a task in `running_tasks` can be cancelled; its queue entry stays behind. */
    method CancelTask(id: nat, now: real) returns (ok: bool)
      requires Valid()
      modifies this`running, this`completed, this`stats
      ensures Valid()
      ensures ok <==> id in old(running)
      ensures ok ==> running == old(running) - {id}
                     && completed == old(completed)[id := old(running)[id].(status := Cancelled, completedAt := Some(now))]
                     && stats == old(stats).(total := old(stats).total + 1, cancelled := old(stats).cancelled + 1)
      ensures !ok ==> running == old(running) && completed == old(completed) && stats == old(stats)
    {
      if id !in running {
        return false;
      }
      var t := running[id];
      completed := completed[id := t.(status := Cancelled, completedAt := Some(now))];
      running := running - {id};
      stats := stats.(total := stats.total + 1, cancelled := stats.cancelled + 1);
      CancelKeepsConsistent(pending, old(running), old(completed), old(stats), nextId, id, now, running, completed, stats);
      ok := true;
    }

    /**
     * `clear_completed_tasks(older_than)`: everything, or the entries completed more than `older_than` seconds
     * before `now`. The ids to remove are collected first, then removed.
     */
    method ClearCompletedTasks(olderThan: Option<real>, now: real)
      requires Valid()
      modifies this`completed
      ensures Valid()
      ensures olderThan.None? ==> completed == map[]
      ensures olderThan.Some? ==>
        completed == map id | id in old(completed) && !Expired(old(completed)[id], olderThan.value, now) :: old(completed)[id]
    {
      if olderThan.None? {
        completed := map[];
      } else {
        var toRemove := ExpiredIds(olderThan.value, now);
        RemoveCompleted(toRemove);
      }
      ForgetKeepsConsistent(pending, running, old(completed), stats, nextId, completed);
    }

    /** The first loop of `clear_completed_tasks`: the ids of the entries completed more than `limit` seconds
        before `now`. */
    method ExpiredIds(limit: real, now: real) returns (ids: seq<nat>)
      requires Valid()
      ensures forall x :: x in ids <==> x in completed && Expired(completed[x], limit, now)
    {
      ids := [];
      var id := 0;
      while id < nextId
        invariant id <= nextId
        invariant forall x :: x in ids <==> x < id && x in completed && Expired(completed[x], limit, now)
      {
        if id in completed && Expired(completed[id], limit, now) {
          ids := ids + [id];
        }
        id := id + 1;
      }
    }

    /** The second loop: each listed id leaves `completed_tasks`. */
    method RemoveCompleted(ids: seq<nat>)
      modifies this`completed
      ensures completed == map x | x in old(completed) && x !in ids :: old(completed)[x]
    {
      var j := 0;
      while j < |ids|
        invariant j <= |ids|
        invariant completed == map x | x in old(completed) && x !in ids[..j] :: old(completed)[x]
      {
        assert ids[..j + 1] == ids[..j] + [ids[j]];
        completed := completed - {ids[j]};
        j := j + 1;
      }
      assert ids[..j] == ids;
    }
  }
}
