/**
 * The download task manager: a download request becomes one queued task whose function is
 * `_execute_download_task`, and a batch request becomes `count` such tasks.
 */
module DownloadTaskManager {
  import opened Wrappers
  import opened Text
  import opened TaskQueue

  /** `ImprovedTaskQueue`'s default capacity. */
  const QueueMaxSize: nat := 1000

  /** `f"下载_{msg_link.split('/')[-1]}_{offset}"`. */
  function TaskName(link: string, offset: int): (r: string)
    ensures |r| >= 3 && r[..3] == "下载_"
  {
    "下载_" + FromEnd(Split(link, "/"), 1).value + "_" + IntToString(offset)
  }

  /** The offset can be read back from a task name: it is the name's last `_`-piece. */
  lemma TaskNameOffset(link: string, offset: int)
    ensures FromEnd(Split(TaskName(link, offset), "_"), 1) == Some(IntToString(offset))
    ensures ParseInt(FromEnd(Split(TaskName(link, offset), "_"), 1).value) == Some(offset)
  {
    var d := IntToString(offset);
    IntToStringChars(offset);
    assert '_' !in d;
    assert TaskName(link, offset) == ("下载_" + FromEnd(Split(link, "/"), 1).value) + ['_'] + d;
    LastPiece("下载_" + FromEnd(Split(link, "/"), 1).value, '_', d);
    ParseIntOfIntToString(offset);
  }

  /** The queued call: `task_func=self._execute_download_task` with `sender`, `msg_link` and `offset` as keywords. */
  function DownloadCall(sender: int, link: string, offset: int): Call {
    Call("_execute_download_task", [], map["sender" := IntValue(sender), "msg_link" := StrValue(link), "offset" := IntValue(offset)])
  }

  /** The arguments `download_message` receives; the userbot and bot clients are the shared ones. */
  datatype DownloadRequest = DownloadRequest(sender: int, editId: int, msgLink: string, offset: int)

  /** What `_execute_download_task(**kwargs)` asks of the download service; `None` is the `TypeError` of a call
      whose arguments do not match its signature. */
  function DownloadRequestOf(c: Call): (r: Option<DownloadRequest>)
    ensures r.Some? ==> r.value.editId == 0
    ensures r.Some? <==> c.args == [] && c.kwargs.Keys == {"sender", "msg_link", "offset"}
                         && c.kwargs["sender"].IntValue? && c.kwargs["msg_link"].StrValue? && c.kwargs["offset"].IntValue?
    ensures r.Some? ==> r.value.sender == c.kwargs["sender"].i && r.value.msgLink == c.kwargs["msg_link"].s
                        && r.value.offset == c.kwargs["offset"].i
  {
    if c.args == [] && c.kwargs.Keys == {"sender", "msg_link", "offset"}
       && c.kwargs["sender"].IntValue? && c.kwargs["msg_link"].StrValue? && c.kwargs["offset"].IntValue?
    then Some(DownloadRequest(c.kwargs["sender"].i, 0, c.kwargs["msg_link"].s, c.kwargs["offset"].i))
    else None
  }

  /** A queued download task runs `download_message` on the stored sender, link and offset, with `edit_id` 0. */
  lemma QueuedCallRoundTrip(sender: int, link: string, offset: int)
    ensures DownloadRequestOf(DownloadCall(sender, link, offset)) == Some(DownloadRequest(sender, 0, link, offset))
  {
    assert DownloadCall(sender, link, offset).kwargs.Keys == {"sender", "msg_link", "offset"};
  }

  /** The record `add_task` creates for a download task. */
  function DownloadTask(id: nat, sender: int, link: string, offset: int, priority: int, now: real): TaskInfo {
    TaskInfo(id, TaskName(link, offset), Pending, now, None, None, None, NoValue, priority, Some(DownloadCall(sender, link, offset)))
  }

  /** The queue entries of the batch tasks with ids `first .. first + n - 1`, all at priority 1. */
  function BatchEntries(first: nat, n: nat): (r: seq<(int, nat)>)
    ensures |r| == n && forall j :: 0 <= j < n ==> r[j] == (-1, first + j)
  {
    if n == 0 then [] else BatchEntries(first, n - 1) + [(-1, first + n - 1)]
  }

  /** The running records of the batch tasks with ids `first .. first + n - 1`: task `first + j` has offset `j`. */
  function BatchTasks(first: nat, n: nat, sender: int, link: string, now: real): (r: map<nat, TaskInfo>)
    ensures forall id :: id in r <==> first <= id < first + n
  {
    if n == 0 then map[]
    else BatchTasks(first, n - 1, sender, link, now)[first + n - 1 := DownloadTask(first + n - 1, sender, link, n - 1, 1, now)]
  }

  /** Batch task `first + j` has offset `j`, priority 1 and the batch's sender and link. */
  lemma {:induction false} BatchTaskValues(first: nat, n: nat, sender: int, link: string, now: real, id: nat)
    requires first <= id < first + n
    ensures BatchTasks(first, n, sender, link, now)[id] == DownloadTask(id, sender, link, id - first, 1, now)
  {
    var m := BatchTasks(first, n - 1, sender, link, now);
    assert BatchTasks(first, n, sender, link, now) == m[first + n - 1 := DownloadTask(first + n - 1, sender, link, n - 1, 1, now)];
    if id < first + n - 1 {
      BatchTaskValues(first, n - 1, sender, link, now, id);
      assert m[id] == DownloadTask(id, sender, link, id - first, 1, now);
    }
  }

  /** Adding the next batch task to a map that already holds the first `i` extends the batch by one. */
  lemma BatchStep(base: map<nat, TaskInfo>, first: nat, i: nat, sender: int, link: string, now: real)
    ensures (base + BatchTasks(first, i, sender, link, now))[first + i := DownloadTask(first + i, sender, link, i, 1, now)]
         == base + BatchTasks(first, i + 1, sender, link, now)
  {
    var b := BatchTasks(first, i, sender, link, now);
    var task := DownloadTask(first + i, sender, link, i, 1, now);
    assert (base + b)[first + i := task] == base + b[first + i := task];
  }

  /** Queueing the next batch task extends the batch's entries by one. */
  lemma EntriesStep(pending0: seq<(int, nat)>, first: nat, i: nat)
    ensures pending0 + BatchEntries(first, i) + [(-1, first + i)] == pending0 + BatchEntries(first, i + 1)
  {
  }

  /** How many of `count` tasks a queue holding `size` of at most `max` entries accepts before refusing one. */
  function Accepted(count: int, isRunning: bool, size: nat, max: nat): (m: nat)
    ensures m <= if count < 0 then 0 else count
    ensures isRunning && count >= 0 && size + count <= max ==> m == count
    ensures !isRunning || count <= 0 || size >= max ==> m == 0
  {
    if count <= 0 || !isRunning || size >= max then 0
    else if size + count <= max then count
    else max - size
  }

  /** The queue refuses the `i`-th task of a batch: `i` tasks were accepted. */
  lemma AcceptedAtRefusal(count: int, isRunning: bool, size: nat, max: nat, i: nat)
    requires i < count && (i > 0 ==> isRunning && size + i <= max) && (!isRunning || size + i >= max)
    ensures Accepted(count, isRunning, size, max) == i
  {
  }

  /** The queue accepted every task of a batch. */
  lemma AcceptedAtEnd(count: int, isRunning: bool, size: nat, max: nat, i: nat)
    requires i == (if count < 0 then 0 else count) && (i > 0 ==> isRunning && size + i <= max)
    ensures Accepted(count, isRunning, size, max) == i
  {
  }

  class DownloadTaskManager {
    const queue: ImprovedTaskQueue

    constructor (maxWorkers: nat)
      ensures fresh(queue) && queue.Valid()
      ensures queue.maxWorkers == maxWorkers && queue.queueMaxSize == QueueMaxSize && !queue.isRunning
      ensures queue.pending == [] && queue.running == map[] && queue.completed == map[]
    {
      queue := new ImprovedTaskQueue(maxWorkers, QueueMaxSize);
    }

    method Start()
      modifies queue`isRunning, queue`workers
      ensures queue.isRunning
      ensures old(queue.isRunning) ==> queue.workers == old(queue.workers)
      ensures !old(queue.isRunning) ==> queue.workers == queue.maxWorkers
    {
      queue.Start();
    }

    method Stop()
      modifies queue`isRunning
      ensures !queue.isRunning
    {
      queue.Stop();
    }

    /** `add_download_task(sender, msg_link, offset, priority)`. */
    method AddDownloadTask(sender: int, link: string, offset: int, priority: int, now: real) returns (r: Result<nat, string>)
      requires queue.Valid()
      modifies queue`pending, queue`running, queue`nextId
      ensures queue.Valid()
      ensures r.Failure? ==> queue.pending == old(queue.pending) && queue.running == old(queue.running) && queue.nextId == old(queue.nextId)
      ensures r.Failure? ==> r.error == if queue.isRunning then "任务队列已满 (最大容量: " + IntToString(queue.queueMaxSize) + ")" else "任务队列未运行"
      ensures r.Success? <==> queue.isRunning && |old(queue.pending)| < queue.queueMaxSize
      ensures r.Success? ==>
        var id := old(queue.nextId);
        r.value == id && queue.nextId == id + 1
        && queue.pending == old(queue.pending) + [(-priority, id)]
        && queue.running == old(queue.running)[id := DownloadTask(id, sender, link, offset, priority, now)]
    {
      r := queue.AddTask(TaskName(link, offset), Some(DownloadCall(sender, link, offset)), priority, now);
    }

    /**
     * `create_batch_task(sender, start_link, count)`: tasks with offsets `0 .. count - 1`, in order, at priority 1;
     * the first refusal of the queue propagates, leaving the tasks already added in place. `stamp` is the integer
     * timestamp the returned id is made of.
     */
    method CreateBatchTask(sender: int, startLink: string, count: int, now: real, stamp: int) returns (r: Result<string, string>)
      requires queue.Valid()
      modifies queue`pending, queue`running, queue`nextId
      ensures queue.Valid()
      ensures var m := Accepted(count, queue.isRunning, |old(queue.pending)|, queue.queueMaxSize);
        queue.pending == old(queue.pending) + BatchEntries(old(queue.nextId), m)
        && queue.running == old(queue.running) + BatchTasks(old(queue.nextId), m, sender, startLink, now)
        && queue.nextId == old(queue.nextId) + m
        && (r.Success? <==> m == (if count < 0 then 0 else count))
      ensures r.Success? ==> r.value == "batch_" + IntToString(stamp)
    {
      ghost var size := |queue.pending|;
      var added, error := AddBatchTasks(sender, startLink, count, now);
      if error.Some? {
        AcceptedAtRefusal(count, queue.isRunning, size, queue.queueMaxSize, added);
        return Failure(error.value);
      }
      AcceptedAtEnd(count, queue.isRunning, size, queue.queueMaxSize, added);
      r := Success("batch_" + IntToString(stamp));
    }

    /** The queue holds the first `n` tasks of a batch, queued after `pending0` and `running0` from id `first`. */
    ghost predicate BatchQueued(sender: int, startLink: string, now: real,
                                pending0: seq<(int, nat)>, running0: map<nat, TaskInfo>, first: nat, n: nat)
      reads queue
    {
      queue.Valid()
      && queue.pending == pending0 + BatchEntries(first, n)
      && queue.running == running0 + BatchTasks(first, n, sender, startLink, now)
      && queue.nextId == first + n
    }

    /** The loop of `create_batch_task`: adds tasks with offsets `0, 1, ...` until `count` are added or the queue
        refuses one, whose error is returned. */
    method AddBatchTasks(sender: int, startLink: string, count: int, now: real) returns (added: nat, error: Option<string>)
      requires queue.Valid()
      modifies queue`pending, queue`running, queue`nextId
      ensures queue.Valid()
      ensures error.None? ==> added == if count < 0 then 0 else count
      ensures error.Some? ==> added < count && (!queue.isRunning || |old(queue.pending)| + added >= queue.queueMaxSize)
      ensures added > 0 ==> queue.isRunning && |old(queue.pending)| + added <= queue.queueMaxSize
      ensures queue.pending == old(queue.pending) + BatchEntries(old(queue.nextId), added)
      ensures queue.running == old(queue.running) + BatchTasks(old(queue.nextId), added, sender, startLink, now)
      ensures queue.nextId == old(queue.nextId) + added
    {
      ghost var first := queue.nextId;
      ghost var pending0 := queue.pending;
      ghost var running0 := queue.running;
      assert pending0 + BatchEntries(first, 0) == pending0;
      assert running0 + BatchTasks(first, 0, sender, startLink, now) == running0;
      added := 0;
      error := None;
      while added < count && error.None?
        invariant 0 <= added <= (if count < 0 then 0 else count)
        invariant BatchQueued(sender, startLink, now, pending0, running0, first, added)
        invariant added > 0 ==> queue.isRunning && |pending0| + added <= queue.queueMaxSize
        invariant error.Some? ==> added < count && (!queue.isRunning || |pending0| + added >= queue.queueMaxSize)
        decreases count - added, if error.None? then 1 else 0
      {
        var ok, next := AddBatchMember(sender, startLink, added, now, pending0, running0, first);
        if ok.Failure? {
          error := Some(ok.error);
        }
        added := next;
      }
    }

    /** The `i`-th task of a batch whose first `i` tasks are queued after `pending0` and `running0`: added exactly
        when the queue runs and has room. */
    method AddBatchMember(sender: int, startLink: string, i: nat, now: real,
                          ghost pending0: seq<(int, nat)>, ghost running0: map<nat, TaskInfo>, ghost first: nat)
      returns (r: Result<nat, string>, next: nat)
      requires BatchQueued(sender, startLink, now, pending0, running0, first, i)
      modifies queue`pending, queue`running, queue`nextId
      ensures r.Success? <==> queue.isRunning && |pending0| + i < queue.queueMaxSize
      ensures next == if r.Success? then i + 1 else i
      ensures BatchQueued(sender, startLink, now, pending0, running0, first, next)
    {
      ghost var pending, running := queue.pending, queue.running;
      assert |pending| == |pending0| + i;
      r := AddDownloadTask(sender, startLink, i, 1, now);
      if r.Success? {
        assert queue.pending == pending + [(-1, first + i)];
        assert queue.running == running[first + i := DownloadTask(first + i, sender, startLink, i, 1, now)];
        BatchStep(running0, first, i, sender, startLink, now);
        EntriesStep(pending0, first, i);
        next := i + 1;
      } else {
        assert queue.pending == pending && queue.running == running && queue.nextId == first + i;
        next := i;
      }
    }

    /** `get_task_status(task_id)`, delegated unchanged. */
    function GetTaskStatus(id: nat): (r: Option<TaskInfo>)
      requires queue.Valid()
      reads queue
      ensures r.Some? <==> id in queue.running || id in queue.completed
      ensures r.Some? ==> r.value.id == id
    {
      queue.GetTaskStatus(id)
    }

    /** `cancel_task(task_id)`, delegated unchanged. */
    method CancelTask(id: nat, now: real) returns (ok: bool)
      requires queue.Valid()
      modifies queue`running, queue`completed, queue`stats
      ensures queue.Valid()
      ensures ok <==> id in old(queue.running)
      ensures !ok ==> queue.running == old(queue.running) && queue.completed == old(queue.completed) && queue.stats == old(queue.stats)
      ensures ok ==> queue.running == old(queue.running) - {id}
                     && queue.completed == old(queue.completed)[id := old(queue.running)[id].(status := Cancelled, completedAt := Some(now))]
                     && queue.stats == old(queue.stats).(total := old(queue.stats).total + 1, cancelled := old(queue.stats).cancelled + 1)
    {
      ok := queue.CancelTask(id, now);
    }

    /** `get_queue_stats()`, delegated unchanged. */
    function GetQueueStats(): (r: QueueStats)
      requires queue.Valid()
      reads queue
      ensures r.pendingTasks == |queue.pending| && r.runningTasks == |queue.running|
      ensures r.stats.total == r.stats.completed + r.stats.failed + r.stats.cancelled
    {
      queue.GetQueueStats()
    }
  }
}
