/**
 * The MongoDB-backed store of users, download history, batch tasks and the traffic-limit
 * settings document, over in-memory collections: users keyed by id, the history as a sequence
 * of rows, the single `traffic_limits` document as an optional record.
 * `available == false` stands for the database being absent (`self.db is None`).
 */
module Database {
  import opened Wrappers
  import Config

  /** The clock reading an operation takes: an instant, its ISO date and its `%Y-%m` month. */
  datatype Clock = Clock(at: int, day: string, month: string)

  /** A document of the `users` collection. */
  datatype UserRecord = UserRecord(
    username: Option<string>, firstName: Option<string>, lastName: Option<string>,
    lastUsed: int, joinDate: int,
    isBanned: bool, isAuthorized: bool,
    totalDownloads: int, totalSize: int, lastDownload: Option<int>,
    dailyUpload: int, dailyDownload: int, monthlyUpload: int, monthlyDownload: int,
    totalUpload: int, totalDownload: int,
    lastResetDaily: string, lastResetMonthly: string)

  /** A chat reference as stored in a history row: a numeric channel id or a bot/user name. */
  datatype ChatId = ChatNum(n: int) | ChatName(name: string)

  /** A document of the `download_history` collection. */
  datatype HistoryRow = HistoryRow(
    userId: int, messageLink: string, messageId: int, chatId: ChatId,
    mediaType: string, fileSize: int, downloadDate: int, status: string)

  /** A document of the `batch_tasks` collection. */
  datatype BatchTaskDoc = BatchTaskDoc(
    userId: int, startLink: string, messageCount: int, completedCount: int,
    status: string, startTime: int, endTime: Option<int>)

  /** The `traffic_limits` settings document; a key can be missing when the document was created by an update. */
  datatype LimitsDoc = LimitsDoc(dailyLimit: Option<int>, monthlyLimit: Option<int>, perFileLimit: Option<int>, enabled: Option<int>)

  /** The keyword arguments of `update_traffic_limits`; `None` leaves a key alone. */
  datatype LimitsUpdate = LimitsUpdate(dailyLimit: Option<int>, monthlyLimit: Option<int>, perFileLimit: Option<int>, enabled: Option<int>)

  /** What `get_user_traffic` returns. */
  datatype Traffic = Traffic(
    dailyUpload: int, dailyDownload: int, monthlyUpload: int, monthlyDownload: int, totalUpload: int, totalDownload: int)

  /** What `get_total_traffic` returns. */
  datatype TotalTraffic = TotalTraffic(todayDownload: int, monthDownload: int, totalUpload: int, totalDownload: int)

  // ---------------------------------------------------------------- users

  /** The document `add_user` inserts for a new id (`$set` and `$setOnInsert` together). */
  function NewUser(username: Option<string>, firstName: Option<string>, lastName: Option<string>,
                   isAuthorized: bool, now: Clock): UserRecord
  {
    UserRecord(username, firstName, lastName, now.at, now.at, false, isAuthorized,
      0, 0, None, 0, 0, 0, 0, 0, 0, now.day, now.month)
  }

  /** The users after the upsert of `add_user`. */
  function UpsertUser(users: map<int, UserRecord>, userId: int, username: Option<string>, firstName: Option<string>,
                      lastName: Option<string>, isAuthorized: bool, now: Clock): (r: map<int, UserRecord>)
    ensures r.Keys == users.Keys + {userId}
    ensures forall id :: id in users && id != userId ==> r[id] == users[id]
  {
    if userId in users then
      users[userId := users[userId].(username := username, firstName := firstName, lastName := lastName, lastUsed := now.at)]
    else users[userId := NewUser(username, firstName, lastName, isAuthorized, now)]
  }

  function TrafficOf(u: UserRecord): Traffic {
    Traffic(u.dailyUpload, u.dailyDownload, u.monthlyUpload, u.monthlyDownload, u.totalUpload, u.totalDownload)
  }

  /** A new user starts unbanned with the given authorisation, no downloads and six zero traffic counters. */
  lemma UpsertNewUser(users: map<int, UserRecord>, userId: int, username: Option<string>, firstName: Option<string>,
                      lastName: Option<string>, isAuthorized: bool, now: Clock)
    requires userId !in users
    ensures var u := UpsertUser(users, userId, username, firstName, lastName, isAuthorized, now)[userId];
      !u.isBanned && u.isAuthorized == isAuthorized && u.totalDownloads == 0 && u.totalSize == 0
      && u.lastDownload == None && TrafficOf(u) == Traffic(0, 0, 0, 0, 0, 0)
      && u.lastResetDaily == now.day && u.lastResetMonthly == now.month && u.joinDate == now.at
  {
  }

  /** On an existing id only the three names and `last_used` change: the flags, counters and join date stay. */
  lemma UpsertExistingUser(users: map<int, UserRecord>, userId: int, username: Option<string>, firstName: Option<string>,
                           lastName: Option<string>, isAuthorized: bool, now: Clock)
    requires userId in users
    ensures var u := UpsertUser(users, userId, username, firstName, lastName, isAuthorized, now)[userId];
      u == users[userId].(username := username, firstName := firstName, lastName := lastName, lastUsed := now.at)
      && u.isAuthorized == users[userId].isAuthorized && TrafficOf(u) == TrafficOf(users[userId])
  {
  }

  /** The two stored flags that `ban_user`, `unban_user`, `authorize_user` and `unauthorize_user` set. */
  datatype Flag = Banned | Authorized

  function FlagOf(u: UserRecord, f: Flag): bool {
    match f
    case Banned => u.isBanned
    case Authorized => u.isAuthorized
  }

  function WithFlag(u: UserRecord, f: Flag, v: bool): (r: UserRecord)
    ensures FlagOf(r, f) == v
    ensures forall g: Flag :: g != f ==> FlagOf(r, g) == FlagOf(u, g)
  {
    match f
    case Banned => u.(isBanned := v)
    case Authorized => u.(isAuthorized := v)
  }

  /** A `$set` of one flag without upsert: an absent id stays absent. */
  function SetFlag(users: map<int, UserRecord>, userId: int, f: Flag, v: bool): (r: map<int, UserRecord>)
    ensures r.Keys == users.Keys
    ensures userId in users ==> r[userId] == WithFlag(users[userId], f, v)
    ensures forall id :: id in users && id != userId ==> r[id] == users[id]
  {
    if userId in users then users[userId := WithFlag(users[userId], f, v)] else users
  }

  /** `modified_count > 0` of that update: the user exists and the flag actually changes. */
  predicate FlagChanges(users: map<int, UserRecord>, userId: int, f: Flag, v: bool) {
    userId in users && FlagOf(users[userId], f) != v
  }

  lemma FlagChangeIsVisible(users: map<int, UserRecord>, userId: int, f: Flag, v: bool)
    ensures FlagChanges(users, userId, f, v) <==> SetFlag(users, userId, f, v) != users
  {
    if userId in users && FlagOf(users[userId], f) == v {
      match f
      case Banned => assert WithFlag(users[userId], f, v) == users[userId];
      case Authorized => assert WithFlag(users[userId], f, v) == users[userId];
    }
    if FlagChanges(users, userId, f, v) {
      assert SetFlag(users, userId, f, v)[userId] != users[userId];
    }
  }

  // ---------------------------------------------------------------- downloads

  /** The users after `add_download`: only a `"success"` row bumps the user's download count and size. */
  function UsersAfterDownload(users: map<int, UserRecord>, userId: int, fileSize: int, status: string, now: Clock): (r: map<int, UserRecord>)
    ensures r.Keys == users.Keys
    ensures forall id :: id in users && id != userId ==> r[id] == users[id]
  {
    if status == "success" && userId in users then
      var u := users[userId];
      users[userId := u.(totalDownloads := u.totalDownloads + 1, totalSize := u.totalSize + fileSize, lastDownload := Some(now.at))]
    else users
  }

  lemma DownloadCountsOnlySuccess(users: map<int, UserRecord>, userId: int, fileSize: int, status: string, now: Clock)
    requires userId in users
    ensures var u := UsersAfterDownload(users, userId, fileSize, status, now)[userId];
      (status == "success" ==>
         u.totalDownloads == users[userId].totalDownloads + 1 && u.totalSize == users[userId].totalSize + fileSize
         && u.lastDownload == Some(now.at))
      && (status != "success" ==> u == users[userId])
      && TrafficOf(u) == TrafficOf(users[userId])
  {
  }

  // ---------------------------------------------------------------- traffic

  /** The users after the `$inc`/`$set` of `add_traffic` (no upsert; no counter is ever reset). */
  function UsersAfterTraffic(users: map<int, UserRecord>, userId: int, up: int, down: int, now: Clock): (r: map<int, UserRecord>)
    ensures r.Keys == users.Keys
    ensures forall id :: id in users && id != userId ==> r[id] == users[id]
  {
    if userId in users then
      var u := users[userId];
      users[userId := u.(
        dailyUpload := u.dailyUpload + up, dailyDownload := u.dailyDownload + down,
        monthlyUpload := u.monthlyUpload + up, monthlyDownload := u.monthlyDownload + down,
        totalUpload := u.totalUpload + up, totalDownload := u.totalDownload + down,
        lastResetDaily := now.day, lastResetMonthly := now.month)]
    else users
  }

  /** Each upload counter grows by `up`, each download counter by `down`, from whatever it held before,
      even when the period key moves to a new day or month. */
  lemma TrafficAccumulates(users: map<int, UserRecord>, userId: int, up: int, down: int, now: Clock)
    requires userId in users
    ensures var u := UsersAfterTraffic(users, userId, up, down, now)[userId]; var o := users[userId];
      TrafficOf(u) == Traffic(o.dailyUpload + up, o.dailyDownload + down, o.monthlyUpload + up,
                              o.monthlyDownload + down, o.totalUpload + up, o.totalDownload + down)
      && u.lastResetDaily == now.day && u.lastResetMonthly == now.month
      && u.totalDownloads == o.totalDownloads && u.isBanned == o.isBanned && u.isAuthorized == o.isAuthorized
  {
  }

  /** `modified_count > 0` of that update: the user exists and the document changes. */
  predicate TrafficChanges(users: map<int, UserRecord>, userId: int, up: int, down: int, now: Clock) {
    userId in users && (up != 0 || down != 0 || users[userId].lastResetDaily != now.day || users[userId].lastResetMonthly != now.month)
  }

  lemma TrafficChangeIsVisible(users: map<int, UserRecord>, userId: int, up: int, down: int, now: Clock)
    ensures TrafficChanges(users, userId, up, down, now) <==> UsersAfterTraffic(users, userId, up, down, now) != users
  {
    var r := UsersAfterTraffic(users, userId, up, down, now);
    if TrafficChanges(users, userId, up, down, now) {
      assert r[userId] != users[userId];
    } else if userId in users {
      assert r[userId] == users[userId];
      assert r == users;
    }
  }

  /** The columns `get_total_traffic` sums: the day and month sums only take users whose period key matches. */
  datatype Column = TodayDownload(day: string) | MonthDownload(month: string) | AllUpload | AllDownload

  function ColumnValue(c: Column, u: UserRecord): int {
    match c
    case TodayDownload(day) => if u.lastResetDaily == day then u.dailyDownload else 0
    case MonthDownload(month) => if u.lastResetMonthly == month then u.monthlyDownload else 0
    case AllUpload => u.totalUpload
    case AllDownload => u.totalDownload
  }

  /** The user ids in the collection's natural order: each once, and exactly the keys of the map. */
  ghost predicate Enumerates(ids: seq<int>, users: map<int, UserRecord>) {
    (forall i, j :: 0 <= i < j < |ids| ==> ids[i] != ids[j])
    && (forall i :: 0 <= i < |ids| ==> ids[i] in users)
    && (forall id :: id in users ==> id in ids)
  }

  /** The `$sum` of a column over the users listed in `ids`. */
  function SumOver(users: map<int, UserRecord>, ids: seq<int>, c: Column): int
    requires forall i :: 0 <= i < |ids| ==> ids[i] in users
  {
    if ids == [] then 0 else SumOver(users, ids[..|ids| - 1], c) + ColumnValue(c, users[ids[|ids| - 1]])
  }

  /** Changing one user moves a column's sum over distinct ids by exactly that user's change in the column,
      when it is listed, and not at all otherwise. */
  lemma {:induction false} SumAfterUpdate(users: map<int, UserRecord>, ids: seq<int>, userId: int, v: UserRecord, c: Column)
    requires userId in users
    requires forall i :: 0 <= i < |ids| ==> ids[i] in users
    requires forall i, j :: 0 <= i < j < |ids| ==> ids[i] != ids[j]
    ensures SumOver(users[userId := v], ids, c)
         == SumOver(users, ids, c) + (if userId in ids then ColumnValue(c, v) - ColumnValue(c, users[userId]) else 0)
  {
    if ids != [] {
      var init := ids[..|ids| - 1];
      SumAfterUpdate(users, init, userId, v, c);
      if ids[|ids| - 1] == userId {
        assert userId !in init by {
          forall i | 0 <= i < |init| ensures init[i] != userId {
            assert ids[i] != ids[|ids| - 1];
          }
        }
      } else {
        assert userId in ids <==> userId in init by {
          assert ids == init + [ids[|ids| - 1]];
        }
      }
    }
  }

  /** `get_total_traffic()` over the users in natural order (an empty match sums to 0). */
  function TotalTrafficOf(users: map<int, UserRecord>, ids: seq<int>, now: Clock): TotalTraffic
    requires forall i :: 0 <= i < |ids| ==> ids[i] in users
  {
    TotalTraffic(
      SumOver(users, ids, TodayDownload(now.day)), SumOver(users, ids, MonthDownload(now.month)),
      SumOver(users, ids, AllUpload), SumOver(users, ids, AllDownload))
  }

  /**
   * Recording traffic for an existing user on `now` raises the all-time sums by `up` and `down`, and the
   * sums of today and this month by `down` plus whatever that user's counter held, when its key was an
   * earlier period: counters are never reset, so earlier days and months leak into the current sums.
   */
  lemma TotalsAfterTraffic(users: map<int, UserRecord>, ids: seq<int>, userId: int, up: int, down: int, now: Clock)
    requires userId in users && Enumerates(ids, users)
    ensures var before := TotalTrafficOf(users, ids, now);
      var after := TotalTrafficOf(UsersAfterTraffic(users, userId, up, down, now), ids, now);
      var o := users[userId];
      after.totalUpload == before.totalUpload + up
      && after.totalDownload == before.totalDownload + down
      && after.todayDownload == before.todayDownload + down + (if o.lastResetDaily == now.day then 0 else o.dailyDownload)
      && after.monthDownload == before.monthDownload + down + (if o.lastResetMonthly == now.month then 0 else o.monthlyDownload)
  {
    var v := UsersAfterTraffic(users, userId, up, down, now)[userId];
    assert UsersAfterTraffic(users, userId, up, down, now) == users[userId := v];
    assert userId in ids;
    SumAfterUpdate(users, ids, userId, v, AllUpload);
    SumAfterUpdate(users, ids, userId, v, AllDownload);
    SumAfterUpdate(users, ids, userId, v, TodayDownload(now.day));
    SumAfterUpdate(users, ids, userId, v, MonthDownload(now.month));
  }

  // ---------------------------------------------------------------- limits

  /** The document `get_traffic_limits` inserts when there is none: the configured defaults, enabled. */
  function DefaultLimitsDoc(d: Config.LimitDefaults): LimitsDoc {
    LimitsDoc(Some(d.dailyLimit), Some(d.monthlyLimit), Some(d.perFileLimit), Some(1))
  }

  /** The settings document after `update_traffic_limits`: the given keys are `$set`, with upsert. */
  function LimitsAfterUpdate(limits: Option<LimitsDoc>, u: LimitsUpdate): (r: Option<LimitsDoc>)
    ensures u == LimitsUpdate(None, None, None, None) ==> r == limits
    ensures u != LimitsUpdate(None, None, None, None) ==> r.Some?
    ensures r.Some? ==>
      var prev := limits.GetOr(LimitsDoc(None, None, None, None));
      r.value.dailyLimit == (if u.dailyLimit.Some? then u.dailyLimit else prev.dailyLimit)
      && r.value.monthlyLimit == (if u.monthlyLimit.Some? then u.monthlyLimit else prev.monthlyLimit)
      && r.value.perFileLimit == (if u.perFileLimit.Some? then u.perFileLimit else prev.perFileLimit)
      && r.value.enabled == (if u.enabled.Some? then u.enabled else prev.enabled)
  {
    if u == LimitsUpdate(None, None, None, None) then limits
    else
      var d := limits.GetOr(LimitsDoc(None, None, None, None));
      Some(LimitsDoc(
        if u.dailyLimit.Some? then u.dailyLimit else d.dailyLimit,
        if u.monthlyLimit.Some? then u.monthlyLimit else d.monthlyLimit,
        if u.perFileLimit.Some? then u.perFileLimit else d.perFileLimit,
        if u.enabled.Some? then u.enabled else d.enabled))
  }

  /** Why `check_traffic_limit` refuses; the numbers are those its message formats. */
  datatype DenyReason = InvalidSize | FileTooLarge(perFileLimit: int) | DailyExhausted(remaining: int) | MonthlyExhausted(remaining: int)

  /** The `(allowed, message)` result, or the `KeyError` of formatting a per-file limit the document lacks. */
  datatype LimitCheck = Allowed | Denied(reason: DenyReason) | MissingPerFileLimit

  function Max0(x: int): int { if x < 0 then 0 else x }

  /** The decision of `check_traffic_limit` over the limits document it read and the user's traffic. */
  function CheckDecision(size: int, limits: Option<LimitsDoc>, traffic: Option<Traffic>): LimitCheck {
    if size < 0 then Denied(InvalidSize)
    else if limits.None? || limits.value.enabled == Some(0) then Allowed
    else if size > limits.value.perFileLimit.GetOr(0) then
      (if limits.value.perFileLimit.None? then MissingPerFileLimit else Denied(FileTooLarge(limits.value.perFileLimit.value)))
    else if traffic.None? then Allowed
    else
      var daily := limits.value.dailyLimit.GetOr(0);
      var monthly := limits.value.monthlyLimit.GetOr(0);
      if traffic.value.dailyDownload + size > daily then Denied(DailyExhausted(Max0(daily - traffic.value.dailyDownload)))
      else if traffic.value.monthlyDownload + size > monthly then Denied(MonthlyExhausted(Max0(monthly - traffic.value.monthlyDownload)))
      else Allowed
  }

  predicate Enforcing(limits: Option<LimitsDoc>) {
    limits.Some? && limits.value.enabled != Some(0)
  }

  /** The order of the checks: a negative size, then disabled limits, then the per-file limit, which is
      decided before (and so independently of) the user's traffic. */
  lemma CheckOrder(size: int, limits: Option<LimitsDoc>, t1: Option<Traffic>, t2: Option<Traffic>)
    ensures size < 0 ==> CheckDecision(size, limits, t1) == Denied(InvalidSize)
    ensures size >= 0 && !Enforcing(limits) ==> CheckDecision(size, limits, t1) == Allowed
    ensures size >= 0 && Enforcing(limits) && limits.value.perFileLimit.Some? && size > limits.value.perFileLimit.value ==>
      CheckDecision(size, limits, t1) == Denied(FileTooLarge(limits.value.perFileLimit.value))
    ensures size >= 0 && Enforcing(limits) && size > limits.value.perFileLimit.GetOr(0) ==>
      CheckDecision(size, limits, t1) == CheckDecision(size, limits, t2)
    ensures size >= 0 && Enforcing(limits) && size <= limits.value.perFileLimit.GetOr(0) ==>
      CheckDecision(size, limits, None) == Allowed
  {
  }

  /** With limits in force and the file within the per-file limit, a transfer is allowed exactly when both
      `used + size <= limit` hold (the bound itself is allowed), and a refusal reports `max(0, limit - used)`. */
  lemma CheckBoundary(size: int, d: LimitsDoc, t: Traffic)
    requires size >= 0 && d.enabled != Some(0) && size <= d.perFileLimit.GetOr(0)
    ensures var r := CheckDecision(size, Some(d), Some(t));
      var daily := d.dailyLimit.GetOr(0); var monthly := d.monthlyLimit.GetOr(0);
      (r == Allowed <==> t.dailyDownload + size <= daily && t.monthlyDownload + size <= monthly)
      && (t.dailyDownload + size > daily ==> r == Denied(DailyExhausted(if daily > t.dailyDownload then daily - t.dailyDownload else 0)))
      && (t.dailyDownload + size <= daily && t.monthlyDownload + size > monthly ==>
           r == Denied(MonthlyExhausted(if monthly > t.monthlyDownload then monthly - t.monthlyDownload else 0)))
  {
  }

  // ---------------------------------------------------------------- the store

  class Store {
    var available: bool
    var users: map<int, UserRecord>
    /** The ids of `users` in insertion order, the order a collection scan visits them. */
    var userIds: seq<int>
    var history: seq<HistoryRow>
    var batchTasks: seq<BatchTaskDoc>
    var limits: Option<LimitsDoc>
    /** The configured `DEFAULT_*` limits. */
    const defaults: Config.LimitDefaults

    ghost predicate Valid()
      reads this
    {
      Enumerates(userIds, users)
    }

    constructor (available: bool, defaults: Config.LimitDefaults)
      ensures this.available == available && this.defaults == defaults
      ensures users == map[] && userIds == [] && history == [] && batchTasks == [] && limits == None
      ensures Valid()
    {
      this.available := available;
      this.defaults := defaults;
      users := map[];
      userIds := [];
      history := [];
      batchTasks := [];
      limits := None;
    }

    /** `add_user(...)`: an upsert, `True` whenever the store is there. */
    method AddUser(userId: int, username: Option<string>, firstName: Option<string>, lastName: Option<string>,
                   isAuthorized: bool, now: Clock) returns (ok: bool)
      requires Valid()
      modifies this`users, this`userIds
      ensures Valid()
      ensures ok == available
      ensures users == if available then UpsertUser(old(users), userId, username, firstName, lastName, isAuthorized, now) else old(users)
      ensures userIds == if available && userId !in old(users) then old(userIds) + [userId] else old(userIds)
    {
      if !available {
        return false;
      }
      if userId !in users {
        userIds := userIds + [userId];
      }
      users := UpsertUser(users, userId, username, firstName, lastName, isAuthorized, now);
      return true;
    }

    /** `ban_user`, `unban_user`, `authorize_user`: set one flag; `True` only when it actually changed. */
    method SetUserFlag(userId: int, f: Flag, v: bool) returns (ok: bool)
      requires Valid()
      modifies this`users
      ensures Valid()
      ensures ok == (available && FlagChanges(old(users), userId, f, v))
      ensures users == if available then SetFlag(old(users), userId, f, v) else old(users)
    {
      if !available {
        return false;
      }
      ok := FlagChanges(users, userId, f, v);
      users := SetFlag(users, userId, f, v);
    }

    method BanUser(userId: int) returns (ok: bool)
      requires Valid()
      modifies this`users
      ensures Valid()
      ensures ok == (available && userId in old(users) && !old(users)[userId].isBanned)
      ensures users == if available then SetFlag(old(users), userId, Banned, true) else old(users)
    {
      ok := SetUserFlag(userId, Banned, true);
    }

    method UnbanUser(userId: int) returns (ok: bool)
      requires Valid()
      modifies this`users
      ensures Valid()
      ensures ok == (available && userId in old(users) && old(users)[userId].isBanned)
      ensures users == if available then SetFlag(old(users), userId, Banned, false) else old(users)
    {
      ok := SetUserFlag(userId, Banned, false);
    }

    method AuthorizeUser(userId: int) returns (ok: bool)
      requires Valid()
      modifies this`users
      ensures Valid()
      ensures ok == (available && userId in old(users) && !old(users)[userId].isAuthorized)
      ensures users == if available then SetFlag(old(users), userId, Authorized, true) else old(users)
    {
      ok := SetUserFlag(userId, Authorized, true);
    }

    /** `unauthorize_user`: a main (AUTH) user is never unauthorised; an AUTH setting that does not parse
        raises inside the `try` and gives `False`. */
    method UnauthorizeUser(userId: int, auth: Config.Auth) returns (ok: bool)
      requires Valid()
      modifies this`users
      ensures Valid()
      ensures var main := Config.GetAuthUsers(auth);
        var allowed := available && main.Some? && userId !in main.value;
        ok == (allowed && FlagChanges(old(users), userId, Authorized, false))
        && users == if allowed then SetFlag(old(users), userId, Authorized, false) else old(users)
    {
      if !available {
        return false;
      }
      var main := Config.GetAuthUsers(auth);
      if main.None? || userId in main.value {
        return false;
      }
      ok := SetUserFlag(userId, Authorized, false);
    }

    /** `is_user_authorized`: main users first, then the stored flag of an existing user.
        `None` is the `ValueError` of an AUTH setting that does not parse, which this method does not catch. */
    function IsUserAuthorized(userId: int, auth: Config.Auth): (r: Option<bool>)
      reads this
      ensures r.None? <==> Config.GetAuthUsers(auth).None?
      ensures r.Some? && userId in Config.GetAuthUsers(auth).value ==> r.value
      ensures r.Some? && userId !in Config.GetAuthUsers(auth).value ==>
        (r.value <==> available && userId in users && users[userId].isAuthorized)
    {
      match Config.GetAuthUsers(auth)
      case None => None
      case Some(main) => Some(userId in main || (available && userId in users && users[userId].isAuthorized))
    }

    /** `add_download(...)`: always one history row; only a success updates the user's statistics. */
    method AddDownload(userId: int, messageLink: string, messageId: int, chatId: ChatId, mediaType: string,
                       fileSize: int, status: string, now: Clock) returns (ok: bool)
      requires Valid()
      modifies this`history, this`users
      ensures Valid()
      ensures ok == available
      ensures history == if available then old(history) + [HistoryRow(userId, messageLink, messageId, chatId, mediaType, fileSize, now.at, status)] else old(history)
      ensures users == if available then UsersAfterDownload(old(users), userId, fileSize, status, now) else old(users)
    {
      if !available {
        return false;
      }
      history := history + [HistoryRow(userId, messageLink, messageId, chatId, mediaType, fileSize, now.at, status)];
      users := UsersAfterDownload(users, userId, fileSize, status, now);
      return true;
    }

    /** `create_batch_task(...)`: inserts a running task and returns its id (here: its position). */
    method CreateBatchTask(userId: int, startLink: string, messageCount: int, now: Clock) returns (id: Option<nat>)
      requires Valid()
      modifies this`batchTasks
      ensures Valid()
      ensures !available ==> id == None && batchTasks == old(batchTasks)
      ensures available ==> id == Some(|old(batchTasks)|)
      ensures available ==> batchTasks == old(batchTasks) + [BatchTaskDoc(userId, startLink, messageCount, 0, "running", now.at, None)]
    {
      if !available {
        return None;
      }
      id := Some(|batchTasks|);
      batchTasks := batchTasks + [BatchTaskDoc(userId, startLink, messageCount, 0, "running", now.at, None)];
    }

    /** `add_traffic(user_id, upload, download)`. */
    method AddTraffic(userId: int, up: int, down: int, now: Clock) returns (ok: bool)
      requires Valid()
      modifies this`users
      ensures Valid()
      ensures !available || up < 0 || down < 0 ==> !ok && users == old(users)
      ensures available && up >= 0 && down >= 0 ==>
        users == UsersAfterTraffic(old(users), userId, up, down, now)
        && ok == TrafficChanges(old(users), userId, up, down, now)
    {
      if !available || up < 0 || down < 0 {
        return false;
      }
      ok := TrafficChanges(users, userId, up, down, now);
      users := UsersAfterTraffic(users, userId, up, down, now);
    }

    /** `get_user_traffic(user_id)`. */
    function GetUserTraffic(userId: int): (r: Option<Traffic>)
      reads this
      ensures r.Some? <==> available && userId in users
      ensures r.Some? ==> r.value.dailyDownload == users[userId].dailyDownload && r.value.monthlyDownload == users[userId].monthlyDownload
    {
      if available && userId in users then Some(TrafficOf(users[userId])) else None
    }

    /** `get_total_traffic()`. */
    function GetTotalTraffic(now: Clock): (r: Option<TotalTraffic>)
      requires Valid()
      reads this
      ensures r.Some? <==> available
    {
      if available then Some(TotalTrafficOf(users, userIds, now)) else None
    }

    /** `get_traffic_limits()`: the stored document, or the defaults, inserted on first use. */
    method GetTrafficLimits() returns (r: Option<LimitsDoc>)
      requires Valid()
      modifies this`limits
      ensures Valid()
      ensures !available ==> r == None && limits == old(limits)
      ensures available && old(limits).Some? ==> r == old(limits) && limits == old(limits)
      ensures available && old(limits).None? ==> r == Some(DefaultLimitsDoc(defaults)) && limits == r
    {
      if !available {
        return None;
      }
      if limits.None? {
        limits := Some(DefaultLimitsDoc(defaults));
      }
      r := limits;
    }

    /** `update_traffic_limits(...)`: writes only the given keys, and answers `True` even when none is given. */
    method UpdateTrafficLimits(u: LimitsUpdate) returns (ok: bool)
      requires Valid()
      modifies this`limits
      ensures Valid()
      ensures ok == available
      ensures limits == if available then LimitsAfterUpdate(old(limits), u) else old(limits)
    {
      if !available {
        return false;
      }
      limits := LimitsAfterUpdate(limits, u);
      return true;
    }

    /** `check_traffic_limit(user_id, file_size)`: never touches the users or the history; its only write is the
        default limits document `get_traffic_limits` may insert. */
    method CheckTrafficLimit(userId: int, size: int) returns (r: LimitCheck)
      requires Valid()
      modifies this`limits
      ensures Valid()
      ensures users == old(users) && history == old(history)
      ensures size < 0 ==> r == Denied(InvalidSize) && limits == old(limits)
      ensures size >= 0 ==> limits == (if available && old(limits).None? then Some(DefaultLimitsDoc(defaults)) else old(limits))
      ensures size >= 0 ==> r == CheckDecision(size, if available then limits else None, GetUserTraffic(userId))
    {
      if size < 0 {
        return Denied(InvalidSize);
      }
      var doc := GetTrafficLimits();
      r := CheckDecision(size, doc, GetUserTraffic(userId));
    }
  }
}
