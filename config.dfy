/**
 * Settings: reading one configuration key, validating the loaded values once,
 * the list of main (AUTH) users and the default traffic limits.
 */
module Config {
  import opened Wrappers
  import opened Text

  /** `ConfigError(message)`. */
  datatype ConfigError = ConfigError(message: string)

  /**
   * `_get_config(key, default, cast)`. The environment reader and its cast are not modelled: `lookup` is their
   * outcome for the key, a value or the exception they raised (`Failure`). `default == None` means the key is
   * required.
   */
  function GetConfig<V>(key: string, default: Option<V>, lookup: Result<V, string>): (r: Result<V, ConfigError>)
    ensures lookup.Success? ==> r == Success(lookup.value)
    ensures lookup.Failure? && default.Some? ==> r == Success(default.value)
    ensures r.Failure? <==> lookup.Failure? && default.None?
    ensures r.Failure? ==> r.error.message == "缺少必需的配置项: " + key
  {
    match lookup
    case Success(v) => Success(v)
    case Failure(_) =>
      match default
      case Some(d) => Success(d)
      case None => Failure(ConfigError("缺少必需的配置项: " + key))
  }

  /** AUTH as loaded: `cast=int` makes it an integer; a string is handled by `get_auth_users` as well. */
  datatype Auth = AuthInt(id: int) | AuthStr(text: string)

  const DefaultMaxWorkers: int := 3
  const DefaultChunkSize: int := 1048576
  const DefaultDailyLimit: int := 1073741824
  const DefaultMonthlyLimit: int := 10737418240
  const DefaultPerFileLimit: int := 104857600

  /** The loaded values that validation and the rest of the core look at. */
  datatype Values = Values(
    apiId: int, apiHash: string, botToken: string, auth: Auth,
    maxWorkers: int, chunkSize: int,
    dailyLimit: int, monthlyLimit: int, perFileLimit: int)

  predicate AuthTruthy(a: Auth) {
    match a
    case AuthInt(n) => n != 0
    case AuthStr(s) => s != ""
  }

  /** The nine rules validation enforces. */
  predicate Acceptable(v: Values) {
    v.apiId != 0 && v.apiHash != "" && v.botToken != "" && AuthTruthy(v.auth)
    && v.maxWorkers > 0 && v.chunkSize > 0
    && v.dailyLimit >= 0 && v.monthlyLimit >= 0 && v.perFileLimit >= 0
  }

  function When(c: bool, msg: string): seq<string> { if c then [msg] else [] }

  /** The error list `_validate_settings` collects, one message per violated rule, in rule order. */
  function ValidationErrors(v: Values): seq<string> {
    When(v.apiId == 0, "API_ID 不能为空")
    + When(v.apiHash == "", "API_HASH 不能为空")
    + When(v.botToken == "", "BOT_TOKEN 不能为空")
    + When(!AuthTruthy(v.auth), "AUTH 不能为空")
    + When(v.maxWorkers <= 0, "MAX_WORKERS 必须大于0")
    + When(v.chunkSize <= 0, "CHUNK_SIZE 必须大于0")
    + When(v.dailyLimit < 0, "DEFAULT_DAILY_LIMIT 不能为负数")
    + When(v.monthlyLimit < 0, "DEFAULT_MONTHLY_LIMIT 不能为负数")
    + When(v.perFileLimit < 0, "DEFAULT_PER_FILE_LIMIT 不能为负数")
  }

  /** No error is collected exactly when every rule holds, and each rule's message appears exactly when it is broken. */
  lemma ValidationErrorsExact(v: Values)
    ensures ValidationErrors(v) == [] <==> Acceptable(v)
    ensures |ValidationErrors(v)| <= 9
    ensures "API_ID 不能为空" in ValidationErrors(v) <==> v.apiId == 0
    ensures "API_HASH 不能为空" in ValidationErrors(v) <==> v.apiHash == ""
    ensures "BOT_TOKEN 不能为空" in ValidationErrors(v) <==> v.botToken == ""
    ensures "AUTH 不能为空" in ValidationErrors(v) <==> !AuthTruthy(v.auth)
    ensures "MAX_WORKERS 必须大于0" in ValidationErrors(v) <==> v.maxWorkers <= 0
    ensures "CHUNK_SIZE 必须大于0" in ValidationErrors(v) <==> v.chunkSize <= 0
    ensures "DEFAULT_DAILY_LIMIT 不能为负数" in ValidationErrors(v) <==> v.dailyLimit < 0
    ensures "DEFAULT_MONTHLY_LIMIT 不能为负数" in ValidationErrors(v) <==> v.monthlyLimit < 0
    ensures "DEFAULT_PER_FILE_LIMIT 不能为负数" in ValidationErrors(v) <==> v.perFileLimit < 0
  {
    NoErrorsExactly(v);
    CredentialMessagesExact(v);
    AuthAndSizeMessagesExact(v);
    LimitMessagesExact(v);
  }

  /** The API_ID, API_HASH and BOT_TOKEN messages appear exactly when their rule is broken. */
  lemma CredentialMessagesExact(v: Values)
    ensures "API_ID 不能为空" in ValidationErrors(v) <==> v.apiId == 0
    ensures "API_HASH 不能为空" in ValidationErrors(v) <==> v.apiHash == ""
    ensures "BOT_TOKEN 不能为空" in ValidationErrors(v) <==> v.botToken == ""
  {
    var e := ValidationErrors(v);
    if "API_ID 不能为空" in e { EveryMessageDistinct(v, "API_ID 不能为空"); }
    if "API_HASH 不能为空" in e { EveryMessageDistinct(v, "API_HASH 不能为空"); }
    if "BOT_TOKEN 不能为空" in e { EveryMessageDistinct(v, "BOT_TOKEN 不能为空"); }
  }

  /** The AUTH, MAX_WORKERS and CHUNK_SIZE messages appear exactly when their rule is broken. */
  lemma AuthAndSizeMessagesExact(v: Values)
    ensures "AUTH 不能为空" in ValidationErrors(v) <==> !AuthTruthy(v.auth)
    ensures "MAX_WORKERS 必须大于0" in ValidationErrors(v) <==> v.maxWorkers <= 0
    ensures "CHUNK_SIZE 必须大于0" in ValidationErrors(v) <==> v.chunkSize <= 0
  {
    var e := ValidationErrors(v);
    if "AUTH 不能为空" in e { EveryMessageDistinct(v, "AUTH 不能为空"); }
    if "MAX_WORKERS 必须大于0" in e { EveryMessageDistinct(v, "MAX_WORKERS 必须大于0"); }
    if "CHUNK_SIZE 必须大于0" in e { EveryMessageDistinct(v, "CHUNK_SIZE 必须大于0"); }
  }

  /** The three default-limit messages appear exactly when their rule is broken. */
  lemma LimitMessagesExact(v: Values)
    ensures "DEFAULT_DAILY_LIMIT 不能为负数" in ValidationErrors(v) <==> v.dailyLimit < 0
    ensures "DEFAULT_MONTHLY_LIMIT 不能为负数" in ValidationErrors(v) <==> v.monthlyLimit < 0
    ensures "DEFAULT_PER_FILE_LIMIT 不能为负数" in ValidationErrors(v) <==> v.perFileLimit < 0
  {
    var e := ValidationErrors(v);
    if "DEFAULT_DAILY_LIMIT 不能为负数" in e { EveryMessageDistinct(v, "DEFAULT_DAILY_LIMIT 不能为负数"); }
    if "DEFAULT_MONTHLY_LIMIT 不能为负数" in e { EveryMessageDistinct(v, "DEFAULT_MONTHLY_LIMIT 不能为负数"); }
    if "DEFAULT_PER_FILE_LIMIT 不能为负数" in e { EveryMessageDistinct(v, "DEFAULT_PER_FILE_LIMIT 不能为负数"); }
  }

  /** The list is empty exactly when every rule holds, and holds at most one message per rule. */
  lemma NoErrorsExactly(v: Values)
    ensures ValidationErrors(v) == [] <==> Acceptable(v)
    ensures |ValidationErrors(v)| <= 9
  {
  }

  /** A collected message comes from one of the nine rules; distinct rules have distinct messages. */
  lemma EveryMessageDistinct(v: Values, m: string)
    requires m in ValidationErrors(v)
    ensures m == "API_ID 不能为空" ==> v.apiId == 0
    ensures m == "API_HASH 不能为空" ==> v.apiHash == ""
    ensures m == "BOT_TOKEN 不能为空" ==> v.botToken == ""
    ensures m == "AUTH 不能为空" ==> !AuthTruthy(v.auth)
    ensures m == "MAX_WORKERS 必须大于0" ==> v.maxWorkers <= 0
    ensures m == "CHUNK_SIZE 必须大于0" ==> v.chunkSize <= 0
    ensures m == "DEFAULT_DAILY_LIMIT 不能为负数" ==> v.dailyLimit < 0
    ensures m == "DEFAULT_MONTHLY_LIMIT 不能为负数" ==> v.monthlyLimit < 0
    ensures m == "DEFAULT_PER_FILE_LIMIT 不能为负数" ==> v.perFileLimit < 0
  {
    var e := ValidationErrors(v);
    assert m in When(v.apiId == 0, "API_ID 不能为空") || m in When(v.apiHash == "", "API_HASH 不能为空")
      || m in When(v.botToken == "", "BOT_TOKEN 不能为空") || m in When(!AuthTruthy(v.auth), "AUTH 不能为空")
      || m in When(v.maxWorkers <= 0, "MAX_WORKERS 必须大于0") || m in When(v.chunkSize <= 0, "CHUNK_SIZE 必须大于0")
      || m in When(v.dailyLimit < 0, "DEFAULT_DAILY_LIMIT 不能为负数")
      || m in When(v.monthlyLimit < 0, "DEFAULT_MONTHLY_LIMIT 不能为负数")
      || m in When(v.perFileLimit < 0, "DEFAULT_PER_FILE_LIMIT 不能为负数");
  }

  /** The message of the single `ConfigError` raised for a list of collected errors. */
  function ValidationMessage(errors: seq<string>): (m: string)
    requires errors != []
    ensures forall k :: 0 <= k < |errors| ==> Contains(m, errors[k])
  {
    JoinContainsAll("配置验证失败:\n", errors, "\n");
    "配置验证失败:\n" + Join(errors, "\n")
  }

  /** The loaded settings with the `_validated` flag that makes validation run at most once. */
  class Settings {
    var values: Values
    var validated: bool

    constructor (v: Values)
      ensures values == v && !validated
    {
      values := v;
      validated := false;
    }

    /** `_validate_settings`: returns at once when already validated; otherwise raises one error carrying
        every violated rule, or marks the settings validated. */
    method ValidateSettings() returns (r: Result<(), ConfigError>)
      modifies this`validated
      ensures old(validated) ==> r.Success? && validated
      ensures !old(validated) && ValidationErrors(values) != [] ==>
        r == Failure(ConfigError(ValidationMessage(ValidationErrors(values)))) && !validated
      ensures !old(validated) && ValidationErrors(values) == [] ==> r.Success? && validated
      ensures r.Success? <==> old(validated) || Acceptable(values)
    {
      if validated {
        return Success(());
      }
      ValidationErrorsExact(values);
      var errors: seq<string> := When(values.apiId == 0, "API_ID 不能为空");
      errors := errors + When(values.apiHash == "", "API_HASH 不能为空");
      errors := errors + When(values.botToken == "", "BOT_TOKEN 不能为空");
      errors := errors + When(!AuthTruthy(values.auth), "AUTH 不能为空");
      errors := errors + When(values.maxWorkers <= 0, "MAX_WORKERS 必须大于0");
      errors := errors + When(values.chunkSize <= 0, "CHUNK_SIZE 必须大于0");
      errors := errors + When(values.dailyLimit < 0, "DEFAULT_DAILY_LIMIT 不能为负数");
      errors := errors + When(values.monthlyLimit < 0, "DEFAULT_MONTHLY_LIMIT 不能为负数");
      errors := errors + When(values.perFileLimit < 0, "DEFAULT_PER_FILE_LIMIT 不能为负数");
      assert errors == ValidationErrors(values);
      if errors != [] {
        return Failure(ConfigError(ValidationMessage(errors)));
      }
      validated := true;
      return Success(());
    }
  }

  /** The ints of the non-empty trimmed pieces, in order; `None` when one of them is not an integer. */
  function ParsePieces(pieces: seq<string>): (r: Option<seq<int>>)
    ensures r.Some? ==> |r.value| <= |pieces|
    decreases |pieces|
  {
    if pieces == [] then Some([])
    else
      var rest := ParsePieces(pieces[1..]);
      var t := Strip(pieces[0]);
      if t == [] then rest
      else match ParseInt(t)
        case None => None
        case Some(n) => if rest.None? then None else Some([n] + rest.value)
  }

  /** `get_auth_users()`: a singleton for an integer AUTH; for a string, the ints of its comma pieces.
      `None` stands for the `ValueError` of a piece that is not an integer. */
  function GetAuthUsers(auth: Auth): (r: Option<seq<int>>)
    ensures auth.AuthInt? ==> r == Some([auth.id])
  {
    match auth
    case AuthInt(n) => Some([n])
    case AuthStr(s) => ParsePieces(Split(s, ","))
  }

  /** `is_user_authorized(user_id)`: membership in the main users (the `ValueError` propagates as `None`). */
  function IsMainUser(auth: Auth, userId: int): (r: Option<bool>)
    ensures r.Some? <==> GetAuthUsers(auth).Some?
    ensures r.Some? ==> (r.value <==> userId in GetAuthUsers(auth).value)
  {
    match GetAuthUsers(auth)
    case None => None
    case Some(users) => Some(userId in users)
  }

  lemma IntToStringHasNoComma(i: int)
    ensures ',' !in IntToString(i)
  {
    var s := IntToString(i);
    if i < 0 {
      assert s == "-" + NatToString(-i);
      assert forall k :: 1 <= k < |s| ==> IsDigit(s[k]) by {
        forall k | 1 <= k < |s| ensures IsDigit(s[k]) { assert s[k] == NatToString(-i)[k - 1]; }
      }
    }
  }

  /** A piece holding an integer contributes that integer in front of the rest. */
  lemma ParsePiecesCons(p: string, rest: seq<string>)
    requires ParseInt(p).Some? && ParsePieces(rest).Some?
    ensures ParsePieces([p] + rest) == Some([ParseInt(p).value] + ParsePieces(rest).value)
  {
    ParseIntStripped(p);
    assert ([p] + rest)[1..] == rest;
  }

  lemma ParsePiecesOne(p: string)
    requires ParseInt(p).Some?
    ensures ParsePieces([p]) == Some([ParseInt(p).value])
  {
    ParseIntStripped(p);
    assert [p][1..] == [];
    assert ParsePieces([p][1..]) == Some([]);
    var n := ParseInt(p).value;
    assert [n] + [] == [n];
  }

  /** A comma-separated AUTH of two ids yields both ids in order. */
  lemma {:induction false} TwoAuthUsers(a: int, b: int)
    ensures GetAuthUsers(AuthStr(IntToString(a) + "," + IntToString(b))) == Some([a, b])
  {
    var sa, sb := IntToString(a), IntToString(b);
    IntToStringHasNoComma(a);
    IntToStringHasNoComma(b);
    assert sa + "," + sb == sa + [','] + sb;
    SplitCons(sa, ',', sb);
    SplitNoChar(sb, ',');
    ParseIntOfIntToString(a);
    ParseIntOfIntToString(b);
    ParsePiecesOne(sb);
    ParsePiecesCons(sa, [sb]);
    assert [sa] + [sb] == [sa, sb];
    var whole := sa + "," + sb;
    assert Split(whole, ",") == [sa, sb];
    assert GetAuthUsers(AuthStr(whole)) == ParsePieces([sa, sb]);
    assert ParsePieces([sa, sb]) == Some([a] + [b]);
    assert [a] + [b] == [a, b];
    assert GetAuthUsers(AuthStr(whole)) == Some([a, b]);
  }

  /** A piece that strips to nothing contributes nothing. */
  lemma BlankPieceSkipped(p: string, rest: seq<string>)
    requires Strip(p) == []
    ensures ParsePieces([p] + rest) == ParsePieces(rest)
  {
    assert ([p] + rest)[1..] == rest;
  }

  /** `int()` strips its argument itself, so stripping first changes nothing. */
  lemma ParseIntOfStrip(p: string)
    ensures ParseInt(Strip(p)) == ParseInt(p)
  {
    StripOfStripped(Strip(p));
  }

  /** A piece that is neither blank nor an integer makes the whole comprehension fail. */
  lemma {:induction false} FailingPieceFails(pieces: seq<string>, k: nat)
    requires k < |pieces| && Strip(pieces[k]) != [] && ParseInt(pieces[k]).None?
    ensures ParsePieces(pieces).None?
    decreases |pieces|
  {
    if k == 0 {
      ParseIntOfStrip(pieces[0]);
    } else {
      assert pieces[1..][k - 1] == pieces[k];
      FailingPieceFails(pieces[1..], k - 1);
    }
  }

  /** A failed comprehension has a piece that is neither blank nor an integer. */
  lemma {:induction false} FailedParseHasPiece(pieces: seq<string>) returns (k: nat)
    requires ParsePieces(pieces).None?
    ensures k < |pieces| && Strip(pieces[k]) != [] && ParseInt(pieces[k]).None?
    decreases |pieces|
  {
    var t := Strip(pieces[0]);
    ParseIntOfStrip(pieces[0]);
    if t != [] && ParseInt(t).None? {
      k := 0;
    } else {
      var j := FailedParseHasPiece(pieces[1..]);
      assert pieces[1..][j] == pieces[j + 1];
      k := j + 1;
    }
  }

  /** Parsing the pieces fails exactly when one of them is neither blank nor an integer. */
  lemma ParsePiecesFails(pieces: seq<string>)
    ensures ParsePieces(pieces).None? <==>
      exists k :: 0 <= k < |pieces| && Strip(pieces[k]) != [] && ParseInt(pieces[k]).None?
  {
    if ParsePieces(pieces).None? {
      var k := FailedParseHasPiece(pieces);
    }
    if exists k :: 0 <= k < |pieces| && Strip(pieces[k]) != [] && ParseInt(pieces[k]).None? {
      var k :| 0 <= k < |pieces| && Strip(pieces[k]) != [] && ParseInt(pieces[k]).None?;
      FailingPieceFails(pieces, k);
    }
  }

  /** The AUTH text of a list of ids: their decimal forms joined by commas. */
  function AuthText(ids: seq<int>): string {
    Join(seq(|ids|, k requires 0 <= k < |ids| => IntToString(ids[k])), ",")
  }

  /** The AUTH text of a list of two ids or more: the first id, a comma, and the text of the rest. */
  lemma AuthTextCons(ids: seq<int>)
    requires |ids| >= 2
    ensures AuthText(ids) == IntToString(ids[0]) + [','] + AuthText(ids[1..])
  {
    var strs := seq(|ids|, k requires 0 <= k < |ids| => IntToString(ids[k]));
    var tail := ids[1..];
    assert strs[1..] == seq(|tail|, k requires 0 <= k < |tail| => IntToString(tail[k]));
  }

  /** Every list of ids, the empty one included, reads back from its AUTH text. */
  lemma {:induction false} AuthUsersRoundTrip(ids: seq<int>)
    ensures GetAuthUsers(AuthStr(AuthText(ids))) == Some(ids)
    decreases |ids|
  {
    if ids == [] {
      var blank: string := [];
      assert AuthText(ids) == blank;
      SplitNoChar(blank, ',');
      assert [blank][1..] == [];
      assert ParsePieces([blank]) == ParsePieces([]);
    } else if |ids| == 1 {
      var sa := IntToString(ids[0]);
      assert AuthText(ids) == sa;
      IntToStringHasNoComma(ids[0]);
      ParseIntOfIntToString(ids[0]);
      SplitNoChar(sa, ',');
      ParsePiecesOne(sa);
      assert [ids[0]] == ids;
    } else {
      AuthUsersRoundTripCons(ids);
    }
  }

  /** Splitting the AUTH text of two ids or more: the first id's text, then the pieces of the rest. */
  lemma SplitAuthTextCons(ids: seq<int>)
    requires |ids| >= 2
    ensures Split(AuthText(ids), ",") == [IntToString(ids[0])] + Split(AuthText(ids[1..]), ",")
  {
    AuthTextCons(ids);
    IntToStringHasNoComma(ids[0]);
    SplitCons(IntToString(ids[0]), ',', AuthText(ids[1..]));
  }

  /** The inductive step of the round trip: the first id's piece, then the pieces of the rest. */
  lemma {:induction false} AuthUsersRoundTripCons(ids: seq<int>)
    requires |ids| >= 2
    ensures GetAuthUsers(AuthStr(AuthText(ids))) == Some(ids)
    decreases |ids|, 0
  {
    var n, tail := ids[0], ids[1..];
    assert [n] + tail == ids;
    var pieces := Split(AuthText(tail), ",");
    SplitAuthTextCons(ids);
    AuthUsersRoundTrip(tail);
    assert ParsePieces(pieces) == Some(tail);
    ParseIntOfIntToString(n);
    ParsePiecesCons(IntToString(n), pieces);
    var parsed := ParsePieces([IntToString(n)] + pieces);
    assert parsed == Some([n] + tail);
    assert GetAuthUsers(AuthStr(AuthText(ids))) == parsed;
  }

  lemma ParseIntStripped(s: string)
    requires ParseInt(s).Some?
    ensures Strip(s) != [] && ParseInt(Strip(s)) == ParseInt(s)
  {
    var t := Strip(s);
    StripOfStripped(t);
  }

  /** `get_traffic_limits()`: the three default limits. */
  datatype LimitDefaults = LimitDefaults(dailyLimit: int, monthlyLimit: int, perFileLimit: int)

  function GetTrafficLimits(v: Values): LimitDefaults {
    LimitDefaults(v.dailyLimit, v.monthlyLimit, v.perFileLimit)
  }

  /** Settings that passed validation hand out non-negative default limits. */
  lemma ValidatedLimitsNonNegative(v: Values)
    requires ValidationErrors(v) == []
    ensures var l := GetTrafficLimits(v); l.dailyLimit >= 0 && l.monthlyLimit >= 0 && l.perFileLimit >= 0
  {
    ValidationErrorsExact(v);
  }

  /** The built-in defaults themselves pass the numeric rules. */
  lemma DefaultsAcceptable(apiId: int, apiHash: string, botToken: string, auth: Auth)
    requires apiId != 0 && apiHash != "" && botToken != "" && AuthTruthy(auth)
    ensures ValidationErrors(Values(apiId, apiHash, botToken, auth, DefaultMaxWorkers, DefaultChunkSize,
      DefaultDailyLimit, DefaultMonthlyLimit, DefaultPerFileLimit)) == []
  {
  }
}
