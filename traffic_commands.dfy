/**
 * The traffic plugin's decisions: parsing `/setlimit` into one limits update, the quota shown by
 * `/traffic`, the replies of `/resettraffic` and the unit `_format_bytes` picks.
 */
module TrafficCommands {
  import opened Wrappers
  import opened Text
  import Database

  const MiB: nat := 1024 * 1024
  const GiB: nat := 1024 * 1024 * 1024

  /** `_validate_numeric_input(value)`: `int(value)`, which must not be negative. */
  function ValidateNumericInput(value: string): (r: Result<nat, string>)
    ensures r.Success? <==> ParseInt(value).Some? && ParseInt(value).value >= 0
    ensures r.Success? ==> r.value == ParseInt(value).value
    ensures ParseInt(value).None? ==> r == Failure("请输入有效数字")
    ensures ParseInt(value).Some? && ParseInt(value).value < 0 ==> r == Failure("数值不能为负数")
  {
    match ParseInt(value)
    case None => Failure("请输入有效数字")
    case Some(n) => if n < 0 then Failure("数值不能为负数") else Success(n)
  }

  /** What `/setlimit` does. */
  datatype SetLimitAction =
    | LimitUsage                                           // fewer than three words: the usage text
    | Apply(update: Database.LimitsUpdate, reply: string)  // call `update_traffic_limits`, then reply
    | LimitError(reply: string)                            // reply only

  /** An update that sets exactly one key. */
  predicate SetsOneKey(u: Database.LimitsUpdate) {
    (if u.dailyLimit.Some? then 1 else 0) + (if u.monthlyLimit.Some? then 1 else 0)
    + (if u.perFileLimit.Some? then 1 else 0) + (if u.enabled.Some? then 1 else 0) == 1
  }

  /** A keyword taking a number: its scale in bytes and its confirmation. */
  function Scaled(kind: string, n: nat): (r: Option<(Database.LimitsUpdate, string)>)
    ensures r.Some? <==> kind in {"daily", "monthly", "file"}
    ensures kind == "daily" ==> r.value.0 == Database.LimitsUpdate(Some(n * MiB), None, None, None)
    ensures kind == "monthly" ==> r.value.0 == Database.LimitsUpdate(None, Some(n * GiB), None, None)
    ensures kind == "file" ==> r.value.0 == Database.LimitsUpdate(None, None, Some(n * MiB), None)
  {
    if kind == "daily" then Some((Database.LimitsUpdate(Some(n * MiB), None, None, None), "✅ 日流量限制已设置为 " + IntToString(n) + " MB"))
    else if kind == "monthly" then Some((Database.LimitsUpdate(None, Some(n * GiB), None, None), "✅ 月流量限制已设置为 " + IntToString(n) + " GB"))
    else if kind == "file" then Some((Database.LimitsUpdate(None, None, Some(n * MiB), None), "✅ 单文件大小限制已设置为 " + IntToString(n) + " MB"))
    else None
  }

  /** `_set_traffic_limit(event)` on the message text. */
  function SetTrafficLimit(text: string): (r: SetLimitAction)
    // the three-word check comes first, for every keyword
    ensures |Words(text)| < 3 <==> r == LimitUsage
    // an update is made exactly for a known keyword with, where one is needed, a valid number
    ensures r.Apply? <==> (|Words(text)| >= 3 &&
      var kind := Lower(Words(text)[1]);
      kind in {"enable", "disable"} || (kind in {"daily", "monthly", "file"} && ValidateNumericInput(Words(text)[2]).Success?))
    // and it sets exactly one key
    ensures r.Apply? ==> SetsOneKey(r.update)
    ensures r.Apply? && Lower(Words(text)[1]) == "enable" ==> r.update == Database.LimitsUpdate(None, None, None, Some(1))
    ensures r.Apply? && Lower(Words(text)[1]) == "disable" ==> r.update == Database.LimitsUpdate(None, None, None, Some(0))
    ensures r.Apply? && Lower(Words(text)[1]) !in {"enable", "disable"} ==>
      var n := ValidateNumericInput(Words(text)[2]).value;
      r.update == Scaled(Lower(Words(text)[1]), n).value.0
    // a bad number reports the validation message; an unknown keyword its own
    ensures |Words(text)| >= 3 && Lower(Words(text)[1]) in {"daily", "monthly", "file"} && ValidateNumericInput(Words(text)[2]).Failure? ==>
      r == LimitError("❌ " + ValidateNumericInput(Words(text)[2]).error)
    ensures |Words(text)| >= 3 && Lower(Words(text)[1]) !in {"enable", "disable", "daily", "monthly", "file"} ==>
      r == LimitError("❌ 无效的限制类型，使用 /setlimit 查看用法")
  {
    var parts := Words(text);
    if |parts| < 3 then LimitUsage
    else
      var kind := Lower(parts[1]);
      if kind == "enable" then Apply(Database.LimitsUpdate(None, None, None, Some(1)), "✅ 流量限制已启用")
      else if kind == "disable" then Apply(Database.LimitsUpdate(None, None, None, Some(0)), "✅ 流量限制已禁用")
      else if kind in {"daily", "monthly", "file"} then
        match ValidateNumericInput(parts[2])
        case Failure(m) => LimitError("❌ " + m)
        case Success(n) => var (u, reply) := Scaled(kind, n).value; Apply(u, reply)
      else LimitError("❌ 无效的限制类型，使用 /setlimit 查看用法")
  }

  /** `/setlimit file N` stores N MiB as the per-file limit and leaves the rest of the limits document alone;
      once limits are in force, a file one byte over that size is refused for its size. */
  lemma PerFileLimitRoundTrip(command: string, n: nat, limits: Option<Database.LimitsDoc>, t: Option<Database.Traffic>)
    requires |command| >= 1 && NoSpace(command)
    requires limits.Some? ==> limits.value.enabled != Some(0)
    ensures var a := SetTrafficLimit(command + " file " + IntToString(n));
      a.Apply? && a.update == Database.LimitsUpdate(None, None, Some(n * MiB), None)
      && var after := Database.LimitsAfterUpdate(limits, a.update);
      after.Some? && after.value.perFileLimit == Some(n * MiB)
      && after.value.dailyLimit == (if limits.Some? then limits.value.dailyLimit else None)
      && after.value.monthlyLimit == (if limits.Some? then limits.value.monthlyLimit else None)
      && Database.CheckDecision(n * MiB + 1, after, t) == Database.Denied(Database.FileTooLarge(n * MiB))
  {
    FileCommandParses(command, n);
    FileLimitInForce(n, limits, t);
  }

  /** `/setlimit file N` is the update of the per-file limit alone, to N MiB. */
  lemma {:induction false} FileCommandParses(command: string, n: nat)
    requires |command| >= 1 && NoSpace(command)
    ensures var a := SetTrafficLimit(command + " file " + IntToString(n));
      a.Apply? && a.update == Database.LimitsUpdate(None, None, Some(n * MiB), None)
  {
    var digits := IntToString(n);
    assert NoSpace(digits) by {
      forall i | 0 <= i < |digits| ensures !IsSpace(digits[i]) {
        assert IsDigit(digits[i]);
      }
    }
    assert NoSpace("file");
    assert command + " file " + digits == command + " " + "file" + " " + digits;
    WordsOfThree(command, "file", digits);
    assert Lower("file") == "file";
    ParseIntOfIntToString(n);
  }

  /** Setting the per-file limit keeps the other limits, and with limits in force a file one byte over it is refused. */
  lemma FileLimitInForce(n: nat, limits: Option<Database.LimitsDoc>, t: Option<Database.Traffic>)
    requires limits.Some? ==> limits.value.enabled != Some(0)
    ensures var after := Database.LimitsAfterUpdate(limits, Database.LimitsUpdate(None, None, Some(n * MiB), None));
      after.Some? && after.value.perFileLimit == Some(n * MiB)
      && after.value.dailyLimit == (if limits.Some? then limits.value.dailyLimit else None)
      && after.value.monthlyLimit == (if limits.Some? then limits.value.monthlyLimit else None)
      && Database.CheckDecision(n * MiB + 1, after, t) == Database.Denied(Database.FileTooLarge(n * MiB))
  {
  }

  /** `/setlimit daily N` with a negative or non-numeric N leaves the limits untouched. */
  lemma RejectedNumberUpdatesNothing(text: string)
    requires |Words(text)| >= 3 && Lower(Words(text)[1]) in {"daily", "monthly", "file"}
    requires ParseInt(Words(text)[2]).None? || ParseInt(Words(text)[2]).value < 0
    ensures SetTrafficLimit(text).LimitError?
  {
  }

  // ---------------------------------------------------------------- /traffic

  /** The quota lines of `/traffic`. */
  datatype Quota = Quota(dailyLimit: int, dailyRemaining: int, monthlyLimit: int, monthlyRemaining: int, perFileLimit: int)

  /** What `/traffic` shows after its reads. */
  datatype StatsView =
    | NoRecord                                           // the user has no document: subscripting `None` raises
    | LimitsDisabled(traffic: Database.Traffic)          // the counters and "disabled"
    | LimitsShown(traffic: Database.Traffic, quota: Quota)
    | MissingLimitKey                                    // `KeyError` on a limit the document lacks

  /** `limits.get('enabled', 0) == 1`: here a missing key means disabled. */
  predicate ShowsEnabled(limits: Option<Database.LimitsDoc>) {
    limits.Some? && limits.value.enabled == Some(1)
  }

  /** `_traffic_stats`: `add_traffic(sender, 0, 0)` does not create a missing user, so the re-read is still `None`. */
  function TrafficStats(traffic: Option<Database.Traffic>, limits: Option<Database.LimitsDoc>): (r: StatsView)
    ensures traffic.None? <==> r == NoRecord
    ensures traffic.Some? && !ShowsEnabled(limits) ==> r == LimitsDisabled(traffic.value)
    ensures r.LimitsShown? <==> (traffic.Some? && ShowsEnabled(limits)
      && limits.value.dailyLimit.Some? && limits.value.monthlyLimit.Some? && limits.value.perFileLimit.Some?)
    ensures r.LimitsShown? ==>
      var q := r.quota; var t := traffic.value;
      q.dailyLimit == limits.value.dailyLimit.value && q.monthlyLimit == limits.value.monthlyLimit.value
      && q.perFileLimit == limits.value.perFileLimit.value
      && q.dailyRemaining >= 0 && q.monthlyRemaining >= 0
      && q.dailyRemaining == (if t.dailyDownload < q.dailyLimit then q.dailyLimit - t.dailyDownload else 0)
      && q.monthlyRemaining == (if t.monthlyDownload < q.monthlyLimit then q.monthlyLimit - t.monthlyDownload else 0)
  {
    if traffic.None? then NoRecord
    else if !ShowsEnabled(limits) then LimitsDisabled(traffic.value)
    else
      var d := limits.value;
      if d.dailyLimit.None? || d.monthlyLimit.None? || d.perFileLimit.None? then MissingLimitKey
      else
        var t := traffic.value;
        LimitsShown(t, Quota(d.dailyLimit.value, Database.Max0(d.dailyLimit.value - t.dailyDownload),
                             d.monthlyLimit.value, Database.Max0(d.monthlyLimit.value - t.monthlyDownload), d.perFileLimit.value))
  }

  /** The daily remainder `/traffic` shows is the one a refusal reports: a file within the per-file limit is
      refused for the day exactly when it is larger than that remainder (with the month still open). */
  lemma ShownRemainderDecides(size: nat, traffic: Database.Traffic, limits: Database.LimitsDoc)
    requires TrafficStats(Some(traffic), Some(limits)).LimitsShown?
    requires size <= limits.perFileLimit.value
    ensures var q := TrafficStats(Some(traffic), Some(limits)).quota;
      var r := Database.CheckDecision(size, Some(limits), Some(traffic));
      (traffic.dailyDownload <= q.dailyLimit ==> (r.Denied? && r.reason.DailyExhausted? <==> size > q.dailyRemaining))
      && (r.Denied? && r.reason.DailyExhausted? ==> r.reason.remaining == q.dailyRemaining)
  {
  }

  /** A limits document without `enabled` (one created by an update that did not set it) is enforced by
      `check_traffic_limit` but reported as disabled by `/traffic`. */
  lemma MissingEnabledDisagrees(traffic: Database.Traffic, limits: Database.LimitsDoc)
    requires limits.enabled == None
    ensures Database.Enforcing(Some(limits))
    ensures TrafficStats(Some(traffic), Some(limits)) == LimitsDisabled(traffic)
  {
  }

  // ---------------------------------------------------------------- /resettraffic

  /** `_reset_traffic`: a reply and nothing else, since no branch calls the store. */
  function ResetTrafficReply(text: string): (r: string)
    ensures |Words(text)| >= 2 && Lower(Words(text)[1]) == "daily" ==> r == "✅ 已重置所有用户今日流量"
    ensures |Words(text)| >= 2 && Lower(Words(text)[1]) == "monthly" ==> r == "✅ 已重置所有用户本月流量"
    ensures |Words(text)| >= 2 && Lower(Words(text)[1]) == "all" ==> r == "✅ 已重置所有流量统计"
    ensures |Words(text)| >= 2 && Lower(Words(text)[1]) !in {"daily", "monthly", "all"} ==> r == "❌ 无效的重置类型"
    ensures |Words(text)| < 2 ==> r == ResetUsage
  {
    var parts := Words(text);
    if |parts| < 2 then ResetUsage
    else
      var kind := Lower(parts[1]);
      if kind == "daily" then "✅ 已重置所有用户今日流量"
      else if kind == "monthly" then "✅ 已重置所有用户本月流量"
      else if kind == "all" then "✅ 已重置所有流量统计"
      else "❌ 无效的重置类型"
  }

  const ResetUsage := "**重置流量统计**\n\n用法:\n - 重置今日流量\n - 重置本月流量\n - 重置所有流量统计"

  /** The replies claim a reset, but a store offered to the command is the same after it. */
  method ResetTraffic(text: string, store: Database.Store) returns (reply: string)
    ensures reply == ResetTrafficReply(text)
    ensures store.users == old(store.users) && store.limits == old(store.limits)
  {
    reply := ResetTrafficReply(text);
  }

  // ---------------------------------------------------------------- bytes

  datatype ByteUnit = B | KB | MB | GB

  function Rank(u: ByteUnit): nat {
    match u
    case B => 0
    case KB => 1
    case MB => 2
    case GB => 3
  }

  function UnitScale(u: ByteUnit): nat {
    match u
    case B => 1
    case KB => 1024
    case MB => MiB
    case GB => GiB
  }

  /** The unit `_format_bytes` chooses; the number shown is the value divided by `UnitScale`. */
  function FormatBytesUnit(v: int): (u: ByteUnit)
    ensures u == B <==> v < 1024
    ensures u != B ==> UnitScale(u) <= v
    ensures u != GB ==> v < 1024 * UnitScale(u)
  {
    if v < 1024 then B else if v < MiB then KB else if v < GiB then MB else GB
  }

  /** A larger byte count never gets a smaller unit. */
  lemma FormatBytesMonotone(v: int, w: int)
    requires v <= w
    ensures Rank(FormatBytesUnit(v)) <= Rank(FormatBytesUnit(w))
  {
  }

  /** Below GB, the scaled number lies in `[1, 1024)`. */
  lemma FormatBytesScaledRange(v: int)
    requires 1024 <= v < GiB
    ensures 1.0 <= v as real / UnitScale(FormatBytesUnit(v)) as real < 1024.0
  {
    var s := UnitScale(FormatBytesUnit(v)) as real;
    assert s > 0.0;
    assert s <= v as real && v as real < 1024.0 * s;
    ScaledBetween(v as real, s);
  }

  lemma ScaledBetween(x: real, s: real)
    requires s > 0.0 && s <= x < 1024.0 * s
    ensures 1.0 <= x / s < 1024.0
  {
    var q := x / s;
    assert q * s == x;
    ProductOrder(q, 1.0, s);
    ProductOrder(1024.0, q, s);
  }

  lemma ProductOrder(a: real, b: real, s: real)
    requires s > 0.0
    ensures a < b ==> a * s < b * s
    ensures a <= b ==> a * s <= b * s
  {
    assert b * s - a * s == (b - a) * s;
    if a < b {
      PositiveProduct(b - a, s);
    }
  }

  lemma PositiveProduct(a: real, b: real)
    requires a > 0.0 && b > 0.0
    ensures a * b > 0.0
  {
  }
}
