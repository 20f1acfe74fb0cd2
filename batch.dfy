/**
 * The `/batch` and `/cancel` commands: a batch downloads the start link at offsets `0, 1, ...`, counts successes
 * and failures, reports progress every five items, and stops early when the sender cancels or a flood wait is
 * too long. What each download returns, what each conversation reply holds and when a `/cancel` is handled
 * are given by the caller.
 */
module Batch {
  import opened Wrappers
  import opened Text

  /** At most this many files per batch. */
  const MaxBatch: int := 100
  /** A flood wait longer than this many seconds ends the batch. */
  const FloodWaitLimit: int := 299
  /** A progress report every this many items. */
  const ProgressEvery: nat := 5

  const NoBatchReply := "没有正在进行的批量任务。"
  const CancelledReply := "已取消。"
  const NoSessionReply := "❌ 未配置 SESSION，无法使用批量下载功能\n\n使用 /addsession 添加 SESSION"
  const BusyReply := "您已经开始了一个批量任务，请等待它完成！"
  const NoLinkReply := "未找到链接。"
  const TimeoutReply := "等待响应超时！"
  const TooManyReply := "单次批量最多只能获取100个文件。"
  const NotIntegerReply := "范围必须是一个整数！"

  /** What one call of `download_message` does: return a value of some truthiness, or raise. */
  datatype Attempt = Returned(truthy: bool) | RaisedFloodWait(seconds: int) | RaisedOther

  /**
   * The environment of iteration `i`: whether a `/cancel` of the sender was handled before the iteration's check,
   * the first download, and the retry made after a short flood wait.
   */
  datatype Item = Item(cancelled: bool, first: Attempt, retry: Attempt)

  /** The messages the loop sends to the sender. */
  datatype Report =
    | Stopped(completed: nat, failed: nat)
    | FloodAborted(completed: nat, failed: nat)
    | Progress(done: nat, total: int, percent: int, completed: nat, failed: nat)
    | Summary(completed: nat, failed: nat, total: int)

  /** Why the loop ended; `Escaped` is an exception leaving `_run_batch`, which its error handler turns into `False`. */
  datatype Stop = Ran | Cancelled | FloodAbort | Escaped

  /** The loop's variables: the tallies, the messages sent and the offsets passed to `download_message`, in order. */
  datatype State = State(completed: nat, failed: nat, reports: seq<Report>, offsets: seq<int>)

  /** The loop's result: its final state, the index of the iteration that ended it (`count` when it ran out), and why. */
  datatype Run = Run(completed: nat, failed: nat, next: nat, reports: seq<Report>, offsets: seq<int>, stop: Stop)

  function Finish(st: State, i: nat, stop: Stop): Run {
    Run(st.completed, st.failed, i, st.reports, st.offsets, stop)
  }

  /** How iteration `i` goes: on to the next one, or out of the loop. */
  datatype Verdict = Continue | Halt(stop: Stop)

  function VerdictOf(it: Item): Verdict {
    if it.cancelled then Halt(Cancelled)
    else if it.first.RaisedOther? then Halt(Escaped)
    else if it.first.RaisedFloodWait? && it.first.seconds > FloodWaitLimit then Halt(FloodAbort)
    else Continue
  }

  /** Whether an iteration that goes on counts a success: the first download's value, or the retry's. */
  function Succeeded(it: Item): bool {
    if it.first.Returned? then it.first.truthy else it.retry == Returned(true)
  }

  /** The state when iteration `i` leaves the loop: the message it sends and the download it started. */
  function Halted(st: State, i: nat, stop: Stop): State {
    match stop
    case Cancelled => st.(reports := st.reports + [Stopped(st.completed, st.failed)])
    case Escaped => st.(offsets := st.offsets + [i])
    case FloodAbort => st.(reports := st.reports + [FloodAborted(st.completed, st.failed)], offsets := st.offsets + [i])
    case Ran => st
  }

  /** The state after iteration `i` of `count` goes through: one more success or failure, one or two downloads of
      offset `i`, and a progress report after every fifth item and after the last. */
  function Advanced(st: State, i: nat, count: int, it: Item): State
    requires i < count
  {
    var ok := Succeeded(it);
    var c := if ok then st.completed + 1 else st.completed;
    var f := if ok then st.failed else st.failed + 1;
    var progress := if (i + 1) % ProgressEvery == 0 || i == count - 1 then [Progress(c + f, count, Percent(c + f, count), c, f)] else [];
    State(c, f, st.reports + progress, st.offsets + if it.first.Returned? then [i] else [i, i])
  }

  /** Iterations `i ..` of `_run_batch` from state `st`; `active` is whether the sender is in `batch_users`. */
  function Loop(i: nat, count: int, items: nat -> Item, active: bool, st: State): Run
    decreases if count > i then count - i else 0
  {
    if i >= count then Finish(st, i, Ran)
    else if !active then Finish(Halted(st, i, Cancelled), i, Cancelled)
    else match VerdictOf(items(i))
      case Halt(stop) => Finish(Halted(st, i, stop), i, stop)
      case Continue => Loop(i + 1, count, items, true, Advanced(st, i, count, items(i)))
  }

  const Start := State(0, 0, [], [])

  /** The percentage of a progress report, `done * 100 // count`. */
  function Percent(done: nat, count: int): int
    requires count > 0
  {
    done * 100 / count
  }

  /** `_run_batch(sender, link, count)` for a sender who is (`active`) or is not in `batch_users` at the start. */
  function RunBatchSpec(count: int, items: nat -> Item, active: bool): Run {
    var r := Loop(0, count, items, active, Start);
    if r.stop == Escaped then r else r.(reports := r.reports + [Summary(r.completed, r.failed, count)])
  }

  predicate Sorted(s: seq<int>) {
    forall k :: 0 <= k < |s| - 1 ==> s[k] <= s[k + 1]
  }

  /** The `done` counts of the progress reports, in order. */
  function Dones(reports: seq<Report>): (r: seq<nat>)
    ensures |r| <= |reports|
  {
    if reports == [] then []
    else Dones(reports[..|reports| - 1]) + (if reports[|reports| - 1].Progress? then [reports[|reports| - 1].done] else [])
  }

  lemma DonesSnoc(a: seq<Report>, p: Report)
    ensures Dones(a + [p]) == Dones(a) + if p.Progress? then [p.done] else []
  {
    assert (a + [p])[..|a|] == a;
  }

  /** The item numbers `1 .. n` after which a report is due: every fifth, and the last of `count`. */
  function Cadence(n: int, count: int): seq<int>
    decreases n
  {
    if n <= 0 then [] else Cadence(n - 1, count) + if n % ProgressEvery == 0 || n == count then [n] else []
  }

  /** A progress report from a batch of `count`: `done` of `count`, `done == completed + failed`, and
      `done * 100 // count` percent, between 0 and 100. */
  predicate WellFormed(p: Report, count: int) {
    p.Progress? ==>
      p.total == count && 1 <= p.done <= count && p.done == p.completed + p.failed
      && p.percent == p.done * 100 / count && 0 <= p.percent <= 100
  }

  /** Offsets `0 .. i - 1` downloaded, in rising order, and no other. */
  ghost predicate OffsetsUpTo(offsets: seq<int>, i: int) {
    Sorted(offsets) && (forall k :: 0 <= k < |offsets| ==> 0 <= offsets[k] < i)
    && (forall j :: 0 <= j < i ==> j in offsets)
  }

  /** Well-formed progress reports, one after each item of the cadence up to item `i`. */
  ghost predicate ReportsUpTo(reports: seq<Report>, i: int, count: int) {
    (forall k :: 0 <= k < |reports| ==> WellFormed(reports[k], count)) && Dones(reports) == Cadence(i, count)
  }

  /** What holds of the loop's state before iteration `i` of `count`. */
  ghost predicate Inv(i: nat, count: int, st: State) {
    (i == 0 || i <= count) && st.completed + st.failed == i
    && OffsetsUpTo(st.offsets, i) && ReportsUpTo(st.reports, i, count)
  }

  /** What holds of the loop's result for a batch of `count`. */
  ghost predicate Outcome(r: Run, count: int) {
    r.completed + r.failed == r.next
    && (r.stop == Ran <==> r.next >= count)
    && (r.stop == Ran ==> r.next == if count > 0 then count else 0)
    && Sorted(r.offsets) && (forall k :: 0 <= k < |r.offsets| ==> 0 <= r.offsets[k] < count)
    && (forall j :: 0 <= j < r.next ==> j in r.offsets)
    && ReportsUpTo(r.reports, r.next, count)
  }

  lemma PercentBound(done: nat, count: int)
    requires 1 <= done <= count
    ensures 0 <= done * 100 / count <= 100
  {
    var q := done * 100 / count;
    assert q * count + done * 100 % count == done * 100;
    if q > 100 {
      MultiplyMonotone(101, q, count);
    }
  }

  lemma MultiplyMonotone(a: int, b: int, c: nat)
    requires a <= b
    ensures a * c <= b * c
  {
    assert b * c - a * c == (b - a) * c;
  }

  /** Downloading offset `i` once or twice extends the offsets by `i`. */
  lemma AppendOffset(offsets: seq<int>, i: nat, more: seq<int>)
    requires OffsetsUpTo(offsets, i) && 1 <= |more| && forall k :: 0 <= k < |more| ==> more[k] == i
    ensures OffsetsUpTo(offsets + more, i + 1)
  {
    var o := offsets + more;
    assert forall k :: 0 <= k < |offsets| ==> o[k] == offsets[k];
    assert forall k :: |offsets| <= k < |o| ==> o[k] == i;
    assert o[|offsets|] == i;
    forall j | 0 <= j < i + 1 ensures j in o {
      if j < i {
        assert j in offsets;
        var k :| 0 <= k < |offsets| && offsets[k] == j;
        assert o[k] == j;
      }
    }
  }

  /** Sending one more message keeps the reports well formed and adds its count to the cadence when it is a
      progress report. */
  lemma AppendReport(reports: seq<Report>, i: int, count: int, m: Report, i': int)
    requires ReportsUpTo(reports, i, count) && WellFormed(m, count)
    requires Cadence(i', count) == Cadence(i, count) + if m.Progress? then [m.done] else []
    ensures ReportsUpTo(reports + [m], i', count)
  {
    DonesSnoc(reports, m);
    var rs := reports + [m];
    forall k | 0 <= k < |rs| ensures WellFormed(rs[k], count) {
      if k < |reports| { assert rs[k] == reports[k]; }
    }
  }

  /** An iteration that goes through keeps the invariant: one more item counted, offset `i` downloaded, and the
      progress report due after item `i + 1`. */
  lemma AdvanceKeepsInv(st: State, i: nat, count: int, it: Item)
    requires i < count && Inv(i, count, st)
    ensures Inv(i + 1, count, Advanced(st, i, count, it))
  {
    var st' := Advanced(st, i, count, it);
    AppendOffset(st.offsets, i, if it.first.Returned? then [i] else [i, i]);
    if (i + 1) % ProgressEvery == 0 || i == count - 1 {
      PercentBound(i + 1, count);
      AppendReport(st.reports, i, count, st'.reports[|st'.reports| - 1], i + 1);
    } else {
      assert st'.reports == st.reports;
    }
  }

  /** Leaving the loop keeps the tallies, sends no progress report and downloads at most offset `i`. */
  lemma HaltGivesOutcome(st: State, i: nat, count: int, stop: Stop)
    requires i < count && Inv(i, count, st) && stop != Ran
    ensures Outcome(Finish(Halted(st, i, stop), i, stop), count)
  {
    var st' := Halted(st, i, stop);
    if stop != Cancelled {
      AppendOffset(st.offsets, i, [i]);
    }
    if stop != Escaped {
      AppendReport(st.reports, i, count, st'.reports[|st'.reports| - 1], i);
    }
  }

  /** The loop keeps its invariant to the end. */
  lemma {:induction false} LoopGivesOutcome(i: nat, count: int, items: nat -> Item, active: bool, st: State)
    requires Inv(i, count, st)
    ensures Outcome(Loop(i, count, items, active, st), count)
    decreases if count > i then count - i else 0
  {
    if i >= count {
      assert forall k :: 0 <= k < |st.offsets| ==> st.offsets[k] < count || count <= 0;
    } else if !active {
      HaltGivesOutcome(st, i, count, Cancelled);
    } else {
      match VerdictOf(items(i))
      case Halt(stop) =>
        HaltGivesOutcome(st, i, count, stop);
      case Continue =>
        AdvanceKeepsInv(st, i, count, items(i));
        LoopGivesOutcome(i + 1, count, items, true, Advanced(st, i, count, items(i)));
    }
  }

  /**
   * What a whole batch does: every iteration it gets through adds exactly one to `completed + failed`, a short flood
   * wait and its retry included, so the tallies reach `count` when nothing stopped it; iteration `i` downloads
   * offset `i`; progress comes with the running tallies after every fifth item and after the last; a final summary
   * ends every batch that did not raise.
   */
  lemma BatchOutcome(count: int, items: nat -> Item, active: bool)
    ensures var r := RunBatchSpec(count, items, active);
      r.completed + r.failed == r.next
      && (r.stop == Ran ==> r.next == if count > 0 then count else 0)
      && (r.stop != Ran ==> r.next < count)
      && Sorted(r.offsets) && (forall k :: 0 <= k < |r.offsets| ==> 0 <= r.offsets[k] < count)
      && (forall j :: 0 <= j < r.next ==> j in r.offsets)
      && (forall k :: 0 <= k < |r.reports| ==> WellFormed(r.reports[k], count))
      && Dones(r.reports) == Cadence(r.next, count)
      && (r.stop != Escaped ==> r.reports[|r.reports| - 1] == Summary(r.completed, r.failed, count))
  {
    var l := Loop(0, count, items, active, Start);
    LoopGivesOutcome(0, count, items, active, Start);
    var r := RunBatchSpec(count, items, active);
    assert r.completed == l.completed && r.failed == l.failed && r.next == l.next;
    assert r.offsets == l.offsets && r.stop == l.stop;
    if l.stop != Escaped {
      AppendReport(l.reports, l.next, count, Summary(l.completed, l.failed, count), l.next);
      assert r.reports == l.reports + [Summary(l.completed, l.failed, count)];
    } else {
      assert r.reports == l.reports;
    }
  }

  /** `0 .. n - 1`. */
  function Range(n: nat): (r: seq<int>)
    ensures |r| == n && forall k :: 0 <= k < n ==> r[k] == k
  {
    if n == 0 then [] else Range(n - 1) + [n - 1]
  }

  lemma {:induction false} LoopWhenDownloadsReturn(i: nat, count: int, items: nat -> Item, st: State)
    requires forall j :: !items(j).cancelled && items(j).first.Returned?
    requires count >= i && st.offsets == Range(i)
    ensures var r := Loop(i, count, items, true, st);
      r.stop == Ran && r.next == count && r.offsets == Range(count)
    decreases count - i
  {
    if i < count {
      LoopWhenDownloadsReturn(i + 1, count, items, Advanced(st, i, count, items(i)));
    }
  }

  /**
   * When no download raises and nobody cancels, the batch goes through every item, downloading each offset once,
   * and ends with the summary. `download_message` is wrapped by an error handler that turns every exception into
   * `False`, so a download from the download service always returns.
   */
  lemma DownloadsReturn(count: int, items: nat -> Item)
    requires forall j :: !items(j).cancelled && items(j).first.Returned?
    requires count >= 0
    ensures var r := RunBatchSpec(count, items, true);
      r.stop == Ran && r.completed + r.failed == count && r.offsets == Range(count)
      && r.reports[|r.reports| - 1] == Summary(r.completed, r.failed, count)
  {
    LoopWhenDownloadsReturn(0, count, items, Start);
    LoopGivesOutcome(0, count, items, true, Start);
  }

  /** The answer to a conversation prompt: the awaited reply, or the timeout. */
  datatype Answer<T> = TimedOut | Answered(value: T)

  /** What `/batch` leads to: nothing, one reply, or a batch run. */
  datatype BatchReply = Ignored | Replied(text: string) | Batched(run: Run)

  class BatchPlugin {
    /** `batch_users`: the senders with a batch in progress. */
    var batchUsers: set<int>

    constructor ()
      ensures batchUsers == {}
    {
      batchUsers := {};
    }

    /** `/cancel`: removes the sender from `batch_users`, replying whether there was a batch to cancel. */
    method CancelCommand(sender: int) returns (reply: string)
      modifies this`batchUsers
      ensures batchUsers == old(batchUsers) - {sender}
      ensures reply == if sender in old(batchUsers) then CancelledReply else NoBatchReply
    {
      if sender !in batchUsers {
        return NoBatchReply;
      }
      batchUsers := batchUsers - {sender};
      reply := CancelledReply;
    }

    /**
     * `_run_batch(userbot, client, sender, link, count)`: the loop over `range(count)`; a `/cancel` handled before
     * iteration `i` is `items(i).cancelled`. Downloads are of the start link at the offsets the result lists.
     */
    method RunBatch(sender: int, count: int, items: nat -> Item) returns (r: Run)
      modifies this`batchUsers
      ensures r == RunBatchSpec(count, items, old(sender in batchUsers))
      ensures batchUsers == if r.stop == Cancelled then old(batchUsers) - {sender} else old(batchUsers)
    {
      ghost var spec := Loop(0, count, items, sender in batchUsers, Start);
      var completed, failed := 0, 0;
      var reports: seq<Report> := [];
      var offsets: seq<int> := [];
      var i := 0;
      var stop := Ran;
      while i < count
        invariant 0 <= i <= if count > 0 then count else 0
        invariant batchUsers == old(batchUsers)
        invariant i > 0 ==> sender in batchUsers
        invariant Loop(i, count, items, sender in batchUsers, State(completed, failed, reports, offsets)) == spec
      {
        ghost var st := State(completed, failed, reports, offsets);
        var it := items(i);
        if it.cancelled {
          var _ := CancelCommand(sender);
        }
        if sender !in batchUsers {
          reports := reports + [Stopped(completed, failed)];
          stop := Cancelled;
          break;
        }
        var ok: bool;
        match it.first {
          case RaisedOther =>
            offsets := offsets + [i];
            return Run(completed, failed, i, reports, offsets, Escaped);
          case RaisedFloodWait(seconds) =>
            offsets := offsets + [i];
            if seconds > FloodWaitLimit {
              reports := reports + [FloodAborted(completed, failed)];
              stop := FloodAbort;
              break;
            }
            offsets := offsets + [i];
            ok := it.retry == Returned(true);
          case Returned(truthy) =>
            offsets := offsets + [i];
            ok := truthy;
        }
        if ok {
          completed := completed + 1;
        } else {
          failed := failed + 1;
        }
        if (i + 1) % ProgressEvery == 0 || i == count - 1 {
          reports := reports + [Progress(completed + failed, count, Percent(completed + failed, count), completed, failed)];
        }
        assert State(completed, failed, reports, offsets) == Advanced(st, i, count, it);
        i := i + 1;
      }
      reports := reports + [Summary(completed, failed, count)];
      r := Run(completed, failed, i, reports, offsets, stop);
    }

    /**
     * `/batch`: ignored outside private chats; refused without a userbot or while the sender's batch runs; then the
     * link and the count are asked for. A timeout, a reply without a link, a count that is not an integer or is
     * above 100 ends the conversation with a reply before any download. Otherwise the sender joins `batch_users`,
     * the batch runs, and the sender leaves `batch_users`. `link` is the link `get_link` finds in the first reply.
     */
    method BatchCommand(sender: int, isPrivate: bool, hasUserbot: bool, link: Answer<Option<string>>,
                        range: Answer<string>, items: nat -> Item) returns (r: BatchReply)
      modifies this`batchUsers
      ensures !isPrivate ==> r == Ignored
      ensures isPrivate && !hasUserbot ==> r == Replied(NoSessionReply)
      ensures isPrivate && hasUserbot && sender in old(batchUsers) ==> r == Replied(BusyReply)
      ensures isPrivate && hasUserbot && sender !in old(batchUsers) ==>
        r == (match link
              case TimedOut => Replied(TimeoutReply)
              case Answered(None) => Replied(NoLinkReply)
              case Answered(Some(_)) =>
                match range
                case TimedOut => Replied(TimeoutReply)
                case Answered(text) =>
                  match ParseInt(text)
                  case None => Replied(NotIntegerReply)
                  case Some(n) => if n > MaxBatch then Replied(TooManyReply) else Batched(RunBatchSpec(n, items, true)))
      ensures r.Batched? ==> batchUsers == old(batchUsers) - {sender}
      ensures !r.Batched? ==> batchUsers == old(batchUsers)
    {
      if !isPrivate {
        return Ignored;
      }
      if !hasUserbot {
        return Replied(NoSessionReply);
      }
      if sender in batchUsers {
        return Replied(BusyReply);
      }
      if link.TimedOut? {
        return Replied(TimeoutReply);
      }
      if link.value.None? {
        return Replied(NoLinkReply);
      }
      if range.TimedOut? {
        return Replied(TimeoutReply);
      }
      var value := ParseInt(range.value);
      if value.None? {
        return Replied(NotIntegerReply);
      }
      if value.value > MaxBatch {
        return Replied(TooManyReply);
      }
      batchUsers := batchUsers + {sender};
      var run := RunBatch(sender, value.value, items);
      batchUsers := batchUsers - {sender};
      r := Batched(run);
    }
  }
}
