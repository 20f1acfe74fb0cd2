/**
 * The session commands plugin: the format check of a Pyrogram session string, the argument
 * handling of `/addsession` and the total line of `/sessions`.
 */
module SessionCommands {
  import opened Wrappers
  import opened Text

  /** `[A-Za-z0-9+/=]`. */
  predicate SessionChar(c: char) {
    'A' <= c <= 'Z' || 'a' <= c <= 'z' || '0' <= c <= '9' || c == '+' || c == '/' || c == '='
  }

  predicate AllSessionChars(s: string) {
    forall i :: 0 <= i < |s| ==> SessionChar(s[i])
  }

  /** `re.match(r"^[A-Za-z0-9+/=]+$", s)`: one or more allowed characters, where Python's `$` also
      matches just before a single trailing newline. */
  predicate MatchesSessionPattern(s: string) {
    (|s| >= 1 && AllSessionChars(s))
    || (|s| >= 2 && s[|s| - 1] == '\n' && AllSessionChars(s[..|s| - 1]))
  }

  /** `_validate_session_string(session_string)`: emptiness, then the character set, then the length. */
  function ValidateSessionString(s: string): (r: (bool, string))
    ensures s == [] ==> r == (false, "SESSION字符串不能为空")
    ensures s != [] && !MatchesSessionPattern(s) ==> r == (false, "SESSION字符串格式无效")
    ensures s != [] && MatchesSessionPattern(s) && |s| < 50 ==> r == (false, "SESSION字符串长度不足")
    ensures r.0 <==> MatchesSessionPattern(s) && |s| >= 50
    ensures r.0 ==> r.1 == "有效"
  {
    if s == [] then (false, "SESSION字符串不能为空")
    else if !MatchesSessionPattern(s) then (false, "SESSION字符串格式无效")
    else if |s| < 50 then (false, "SESSION字符串长度不足")
    else (true, "有效")
  }

  /** One forbidden character is a format error whatever the length: the character check comes first. */
  lemma ForeignCharIsFormatError(s: string, i: nat)
    requires i < |s| - 1 && !SessionChar(s[i])
    ensures ValidateSessionString(s) == (false, "SESSION字符串格式无效")
  {
    assert s[..|s| - 1][i] == s[i];
  }

  /** A session string of at least 50 allowed characters, with or without one trailing newline, is accepted. */
  lemma TrailingNewlineAccepted(t: string)
    requires |t| >= 50 && AllSessionChars(t)
    ensures ValidateSessionString(t).0 && ValidateSessionString(t + "\n").0
  {
    assert (t + "\n")[..|t + "\n"| - 1] == t;
  }

  /** What `/addsession` does with the message text. */
  datatype AddSessionStep =
    | ShowUsage                  // no argument
    | Rejected(reply: string)    // the argument failed validation
    | Save(session: string)      // add the user, then save this session string

  /** The argument of `/addsession`: the stripped remainder after the command word of the stripped text, if any. */
  function SessionArgument(text: string): Option<string> {
    var parts := SplitOnce(Strip(text));
    if |parts| < 2 then None else Some(Strip(parts[1]))
  }

  /** `_add_session`: strip the text, split off the command word, strip and validate the rest. */
  function AddSession(text: string): (r: AddSessionStep)
    ensures SessionArgument(text).None? <==> r == ShowUsage
    ensures SessionArgument(text).Some? ==> (r.Save? <==> ValidateSessionString(SessionArgument(text).value).0)
    ensures r.Save? ==> ValidateSessionString(r.session).0 && r.session == SessionArgument(text).value
    ensures r.Rejected? ==> r.reply == "❌ " + ValidateSessionString(SessionArgument(text).value).1
  {
    match SessionArgument(text)
    case None => ShowUsage
    case Some(session) =>
      var (ok, message) := ValidateSessionString(session);
      if !ok then Rejected("❌ " + message) else Save(session)
  }

  /**
   * The `username` field of a stored user as `user.get("username", "未知")` sees it: absent, stored as `None`
   * (what `add_user` writes for a Telegram account without a user name), or a name.
   */
  datatype StoredName = NameMissing | NameNull | Name(name: string)

  /** One saved session as listed: the stored user id and the user name field. */
  datatype SessionEntry = SessionEntry(userId: int, username: StoredName)

  /** What the f-string prints for the name: the `get` default for a missing field, `None` for a null one. */
  function ShownName(n: StoredName): (r: string)
    ensures n.NameMissing? ==> r == "未知"
    ensures n.NameNull? ==> r == "None"
    ensures n.Name? ==> r == n.name
  {
    match n
    case NameMissing => "未知"
    case NameNull => "None"
    case Name(s) => s
  }

  /** The user line of the listing for the entry numbered `i`. */
  function NameLine(e: SessionEntry, i: nat): string {
    IntToString(i) + ". **用户**: " + ShownName(e.username) + " (" + IntToString(e.userId) + ")\n"
  }

  /** The two lines of the listing for the entry numbered `i`. */
  function EntryLine(e: SessionEntry, i: nat): string {
    NameLine(e, i) + "   SESSION: \n\n"
  }

  /** `f(xs[0], first) + f(xs[1], first + 1) + ...`: the body of an `enumerate(xs, first)` loop appending to a message. */
  function Numbered<T>(xs: seq<T>, first: nat, f: (T, nat) -> string): string
    decreases |xs|
  {
    if xs == [] then [] else f(xs[0], first) + Numbered(xs[1..], first + 1, f)
  }

  function EntryLines(entries: seq<SessionEntry>, first: nat): string {
    Numbered(entries, first, EntryLine)
  }

  /** The text appended for the `k`-th item, numbered `first + k`, lies inside the message, between `a` and `b`. */
  lemma {:induction false} NumberedHas<T>(xs: seq<T>, first: nat, f: (T, nat) -> string, k: nat) returns (a: string, b: string)
    requires k < |xs|
    ensures Numbered(xs, first, f) == a + f(xs[k], first + k) + b
    decreases |xs|
  {
    if k == 0 {
      a, b := [], Numbered(xs[1..], first + 1, f);
    } else {
      var a', b' := NumberedHas(xs[1..], first + 1, f, k - 1);
      assert xs[1..][k - 1] == xs[k];
      a, b := Regroup(f(xs[0], first), Numbered(xs[1..], first + 1, f), a', f(xs[k], first + k), b');
    }
  }

  /** `x` framed by `a` and `b` inside `rest` is framed by `l + a` and `b` inside `l + rest`. */
  lemma Regroup(l: string, rest: string, a0: string, x: string, b0: string) returns (a: string, b: string)
    requires rest == a0 + x + b0
    ensures l + rest == a + x + b && a == l + a0 && b == b0
  {
    a, b := l + a0, b0;
  }

  /** The text appended for the `k`-th item is contained in any message framing the numbered list. */
  lemma NumberedContained<T>(head: string, xs: seq<T>, first: nat, f: (T, nat) -> string, tail: string, k: nat)
    requires k < |xs|
    ensures Contains(head + Numbered(xs, first, f) + tail, f(xs[k], first + k))
  {
    var a, b := NumberedHas(xs, first, f, k);
    assert head + Numbered(xs, first, f) + tail == (head + a) + f(xs[k], first + k) + (b + tail);
    ContainsInfix(head + a, f(xs[k], first + k), b + tail);
  }

  /** Every session is listed, numbered from 1 in the order the store returns them, with its shown name and id. */
  lemma ListSessionsShowsEntry(entries: seq<SessionEntry>, k: nat)
    requires k < |entries|
    ensures Contains(ListSessionsReply(entries), EntryLine(entries[k], k + 1))
  {
    NumberedContained(ListHead, entries, 1, EntryLine, TotalLine(|entries|), k);
  }

  /** A user stored without a user name is listed as `None`, not as the `未知` default. */
  lemma NullNameListedAsNone(entries: seq<SessionEntry>, k: nat)
    requires k < |entries| && entries[k].username == NameNull
    ensures Contains(ListSessionsReply(entries),
      IntToString(k + 1) + ". **用户**: " + "None" + " (" + IntToString(entries[k].userId) + ")\n")
  {
    ListSessionsShowsEntry(entries, k);
    ContainsPrefix(ListSessionsReply(entries), NameLine(entries[k], k + 1), "   SESSION: \n\n");
  }

  /** A stored document without a `username` field is listed with the `未知` default. */
  lemma MissingNameListedAsUnknown(entries: seq<SessionEntry>, k: nat)
    requires k < |entries| && entries[k].username == NameMissing
    ensures Contains(ListSessionsReply(entries),
      IntToString(k + 1) + ". **用户**: " + "未知" + " (" + IntToString(entries[k].userId) + ")\n")
  {
    ListSessionsShowsEntry(entries, k);
    ContainsPrefix(ListSessionsReply(entries), NameLine(entries[k], k + 1), "   SESSION: \n\n");
  }

  /** A stored user name is listed as it is. */
  lemma StoredNameListed(entries: seq<SessionEntry>, k: nat, name: string)
    requires k < |entries| && entries[k].username == Name(name)
    ensures Contains(ListSessionsReply(entries),
      IntToString(k + 1) + ". **用户**: " + name + " (" + IntToString(entries[k].userId) + ")\n")
  {
    ListSessionsShowsEntry(entries, k);
    ContainsPrefix(ListSessionsReply(entries), NameLine(entries[k], k + 1), "   SESSION: \n\n");
  }

  const ListHead: string := "📋 **已保存的 SESSION 列表**\n\n"

  function TotalLine(n: nat): string {
    "**总计**: " + IntToString(n) + " 个会话"
  }

  /** The reply of `/sessions`. */
  function ListSessionsReply(entries: seq<SessionEntry>): (r: string)
    ensures entries == [] ==> r == "📭 暂无保存的 SESSION"
    ensures entries != [] ==> |r| >= |TotalLine(|entries|)| && r[|r| - |TotalLine(|entries|)|..] == TotalLine(|entries|)
  {
    if entries == [] then "📭 暂无保存的 SESSION"
    else ListHead + EntryLines(entries, 1) + TotalLine(|entries|)
  }

  /** The total printed is the number of sessions, and it can be read back. */
  lemma ListSessionsCount(entries: seq<SessionEntry>)
    requires entries != []
    ensures var r := ListSessionsReply(entries); var n := |IntToString(|entries|)|;
      |r| >= n + 4 && ParseInt(r[|r| - n - 4..|r| - 4]) == Some(|entries|)
  {
    var digits := IntToString(|entries|);
    var a := ListHead + EntryLines(entries, 1) + "**总计**: ";
    var tail := " 个会话";
    assert |tail| == 4;
    assert ListSessionsReply(entries) == a + digits + tail;
    SliceOfConcat(a, digits, tail);
    ParseIntOfIntToString(|entries|);
  }

  lemma SliceOfConcat(a: string, d: string, t: string)
    ensures (a + d + t)[|a|..|a| + |d|] == d
  {
  }
}
