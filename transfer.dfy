/**
 * The transfer of one message link, as `DownloadService.download_message` and its near-copy
 * `MessageService.get_msg` perform it: link normalisation, chat derivation, the media-attribute
 * orders, error translation, the transport-fallback check, and which history row and which traffic
 * increment every exit path writes. Telegram is an oracle: a `World` of replies.
 */
module Transfer {
  import opened Wrappers
  import opened Text
  import Database

  /** Which of the two implementations runs. */
  datatype Service = DownloadSvc | MessageSvc

  // ---------------------------------------------------------------- links

  /** Everything from `?single` on is dropped. */
  function Normalize(link: string): (r: string)
    ensures r <= link
    ensures !Contains(link, "?single") ==> r == link
  {
    if Contains(link, "?single") then Before(link, "?single") else link
  }

  /** `int(link.split("/")[-1]) + offset`; `None` is the `ValueError`. */
  function MessageId(link: string, offset: int): (r: Option<int>)
    ensures r.Some? <==> ParseInt(FromEnd(Split(link, "/"), 1).value).Some?
    ensures r.Some? ==> r.value == ParseInt(FromEnd(Split(link, "/"), 1).value).value + offset
  {
    match ParseInt(FromEnd(Split(link, "/"), 1).value)
    case None => None
    case Some(n) => Some(n + offset)
  }

  /** A link the userbot must fetch: a private channel (`t.me/c/`) or a bot/user chat (`t.me/b/`). */
  predicate IsPrivate(link: string) {
    Contains(link, "t.me/c/") || Contains(link, "t.me/b/")
  }

  /** The chat of a private link: the second-to-last segment, kept as a name for `t.me/b/`, and as the
      integer `-100<segment>` otherwise; `None` is the `ValueError` of that conversion. */
  function PrivateChat(link: string): (r: Option<Database.ChatId>)
    ensures Contains(link, "t.me/b/") && |Split(link, "/")| >= 2 ==> r == Some(Database.ChatName(Split(link, "/")[|Split(link, "/")| - 2]))
    ensures !Contains(link, "t.me/b/") && |Split(link, "/")| >= 2 ==>
      var n := ParseInt("-100" + Split(link, "/")[|Split(link, "/")| - 2]);
      r == if n.Some? then Some(Database.ChatNum(n.value)) else None
  {
    match FromEnd(Split(link, "/"), 2)
    case None => None
    case Some(seg) =>
      if Contains(link, "t.me/b/") then Some(Database.ChatName(seg))
      else match ParseInt("-100" + seg)
        case None => None
        case Some(n) => Some(Database.ChatNum(n))
  }

  /** The chat of a public link: the first segment after `t.me`; `None` is the `IndexError`. */
  function PublicChat(link: string): (r: Option<string>)
    ensures r.Some? ==> (|Split(link, "t.me")| >= 2 && |Split(Split(link, "t.me")[1], "/")| >= 2
                         && r.value == Split(Split(link, "t.me")[1], "/")[1])
  {
    match At(Split(link, "t.me"), 1)
    case None => None
    case Some(after) => At(Split(after, "/"), 1)
  }

  /** The link retried after `PeerIdInvalid`: the third-to-last segment as a channel id when it is an
      integer, as a bot/user name otherwise, with the message id already offset. */
  function PeerRetryLink(link: string, msgId: int): (r: Option<string>)
    ensures r.Some? <==> |Split(link, "/")| >= 3
    ensures r.Some? ==>
      var c := Split(link, "/")[|Split(link, "/")| - 3];
      r.value == (if ParseInt(c).Some? then "t.me/c/" else "t.me/b/") + c + "/" + IntToString(msgId)
  {
    match FromEnd(Split(link, "/"), 3)
    case None => None
    case Some(c) => Some((if ParseInt(c).Some? then "t.me/c/" else "t.me/b/") + c + "/" + IntToString(msgId))
  }

  // ---------------------------------------------------------------- messages

  /** `msg.media`, as far as the transfer distinguishes it. */
  datatype MediaKind = NoMedia | WebPage | VideoNoteMedia | VideoMedia | PhotoMedia | OtherMedia

  /** The media attributes of a message, each with its `file_size` when present. */
  datatype Attachments = Attachments(
    document: Option<int>, video: Option<int>, audio: Option<int>,
    photo: Option<int>, voice: Option<int>, videoNote: Option<int>)

  datatype Message = Message(kind: MediaKind, hasText: bool, att: Attachments)

  /** `_get_file_size`: the first present attribute in the order document, video, audio, photo, voice, video note. */
  function FileSize(a: Attachments): (r: int)
    ensures a.document.Some? ==> r == a.document.value
    ensures a.document.None? && a.video.Some? ==> r == a.video.value
    ensures a.document.None? && a.video.None? && a.audio.Some? ==> r == a.audio.value
    ensures a.document.None? && a.video.None? && a.audio.None? && a.photo.Some? ==> r == a.photo.value
    ensures a.document.None? && a.video.None? && a.audio.None? && a.photo.None? && a.voice.Some? ==> r == a.voice.value
    ensures a.document.None? && a.video.None? && a.audio.None? && a.photo.None? && a.voice.None? ==> r == a.videoNote.GetOr(0)
  {
    if a.document.Some? then a.document.value
    else if a.video.Some? then a.video.value
    else if a.audio.Some? then a.audio.value
    else if a.photo.Some? then a.photo.value
    else if a.voice.Some? then a.voice.value
    else if a.videoNote.Some? then a.videoNote.value
    else 0
  }

  /** `_get_media_type`: a different order, video note, video, photo, document, audio, voice. */
  function MediaType(a: Attachments): (r: string)
    ensures a.videoNote.Some? ==> r == "video_note"
    ensures a.videoNote.None? && a.video.Some? ==> r == "video"
    ensures a.videoNote.None? && a.video.None? && a.photo.Some? ==> r == "photo"
    ensures a.videoNote.None? && a.video.None? && a.photo.None? && a.document.Some? ==> r == "document"
    ensures a.videoNote.None? && a.video.None? && a.photo.None? && a.document.None? && a.audio.Some? ==> r == "audio"
    ensures a.videoNote.None? && a.video.None? && a.photo.None? && a.document.None? && a.audio.None? ==>
      r == (if a.voice.Some? then "voice" else "unknown")
  {
    if a.videoNote.Some? then "video_note"
    else if a.video.Some? then "video"
    else if a.photo.Some? then "photo"
    else if a.document.Some? then "document"
    else if a.audio.Some? then "audio"
    else if a.voice.Some? then "voice"
    else "unknown"
  }

  /** The two orders disagree: a message with a document and a video is sized by the document but typed as video. */
  lemma OrdersDisagree(d: int, v: int)
    ensures var a := Attachments(Some(d), Some(v), None, None, None, None);
      FileSize(a) == d && MediaType(a) == "video"
  {
  }

  // ---------------------------------------------------------------- errors

  /** `DownloadService._translate_error`: the media rule and the FloodWait rule match case-sensitively,
      the size and timeout rules on the lowercased message. */
  function DownloadTranslate(e: string): (r: string)
    ensures Contains(e, "doesn't contain any downloadable media") ==> r == "此消息不包含可下载的媒体文件"
    ensures !Contains(e, "doesn't contain any downloadable media") && Contains(Lower(e), "file size") ==> r == "文件大小错误"
    ensures (!Contains(e, "doesn't contain any downloadable media") && !Contains(Lower(e), "file size")
             && Contains(Lower(e), "timeout")) ==> r == "下载超时，请重试"
    ensures (!Contains(e, "doesn't contain any downloadable media") && !Contains(Lower(e), "file size")
             && !Contains(Lower(e), "timeout")) ==> r == (if Contains(e, "FloodWait") then "请求过于频繁，请稍后再试" else e)
  {
    if Contains(e, "doesn't contain any downloadable media") then "此消息不包含可下载的媒体文件"
    else if Contains(Lower(e), "file size") then "文件大小错误"
    else if Contains(Lower(e), "timeout") then "下载超时，请重试"
    else if Contains(e, "FloodWait") then "请求过于频繁，请稍后再试"
    else e
  }

  /** The translation table of `MessageService._translate_error`, in its dictionary order. */
  const Translations: seq<(string, string)> := [
    ("doesn't contain any downloadable media", "此消息不包含可下载的媒体文件"),
    ("file size", "文件大小错误"),
    ("timeout", "下载超时，请重试")]

  /** The value of the first key contained in `lowered`, or `e` itself. */
  function FirstTranslation(table: seq<(string, string)>, lowered: string, e: string): (r: string)
    ensures (forall k :: 0 <= k < |table| ==> !Contains(lowered, table[k].0)) ==> r == e
    ensures table != [] && Contains(lowered, table[0].0) ==> r == table[0].1
    decreases |table|
  {
    if table == [] then e
    else if Contains(lowered, table[0].0) then table[0].1
    else FirstTranslation(table[1..], lowered, e)
  }

  /** `MessageService._translate_error`: the loop over the table, matching each key against the lowercased message. */
  method MessageTranslate(e: string) returns (r: string)
    ensures r == FirstTranslation(Translations, Lower(e), e)
  {
    var lowered := Lower(e);
    var k := 0;
    while k < |Translations|
      invariant 0 <= k <= |Translations|
      invariant forall j :: 0 <= j < k ==> !Contains(lowered, Translations[j].0)
      invariant FirstTranslation(Translations, lowered, e) == FirstTranslation(Translations[k..], lowered, e)
    {
      if Contains(lowered, Translations[k].0) {
        return Translations[k].1;
      }
      assert Translations[k..][1..] == Translations[k + 1..];
      k := k + 1;
    }
    r := e;
  }

  /** The one rule the two translations do not share: a FloodWait message that matches no other rule is
      translated by the download service and passed through unchanged by the message service. */
  lemma FloodWaitOnlyInDownloadService(e: string)
    requires Contains(e, "FloodWait")
    requires forall k :: 0 <= k < |Translations| ==> !Contains(Lower(e), Translations[k].0)
    ensures DownloadTranslate(e) == "请求过于频繁，请稍后再试"
    ensures FirstTranslation(Translations, Lower(e), e) == e
  {
    assert !Contains(Lower(e), Translations[0].0);
    LowerNeverRemovesLowercase(e, "doesn't contain any downloadable media");
    assert !Contains(Lower(e), Translations[1].0);
    assert !Contains(Lower(e), Translations[2].0);
  }

  /** A pattern without capital letters that occurs in `e` still occurs in `lower(e)`. */
  lemma LowerNeverRemovesLowercase(e: string, pat: string)
    requires forall i :: 0 <= i < |pat| ==> !('A' <= pat[i] <= 'Z')
    ensures Contains(e, pat) ==> Contains(Lower(e), pat)
  {
    if Contains(e, pat) {
      var i := IndexOf(e, pat).value;
      assert Lower(e)[i..i + |pat|] == pat by {
        forall j | 0 <= j < |pat| ensures Lower(e)[i + j] == pat[j] {
          assert e[i..i + |pat|][j] == e[i + j];
        }
      }
      ContainsAt(Lower(e), pat, i);
    }
  }

  /** `_is_telethon_fallback_needed`: the download service wants the last marker to be the whole message,
      the message service only to occur in it. */
  function FallbackNeeded(svc: Service, e: string): (r: bool)
    ensures r <==> Contains(e, "messages.SendMedia") || Contains(e, "SaveBigFilePartRequest") || Contains(e, "SendMediaRequest")
                   || (if svc == DownloadSvc then e == "File size equals to 0 B" else Contains(e, "File size equals to 0 B"))
  {
    Contains(e, "messages.SendMedia") || Contains(e, "SaveBigFilePartRequest") || Contains(e, "SendMediaRequest")
    || (if svc == DownloadSvc then e == "File size equals to 0 B" else Contains(e, "File size equals to 0 B"))
  }

  /** Every error that makes the download service fall back makes the message service fall back too. */
  lemma FallbackWider(e: string)
    ensures FallbackNeeded(DownloadSvc, e) ==> FallbackNeeded(MessageSvc, e)
  {
    if e == "File size equals to 0 B" {
      ContainsInfix([], e, []);
      assert [] + e + [] == e;
    }
  }

  /** What removing a downloaded file meets. */
  datatype FileState = Absent | Removable | RemoveRaises

  /** `_cleanup_file`: the download service answers whether the file existed (its removal swallows errors);
      the message service answers whether no removal failed. */
  function CleanupResult(svc: Service, f: FileState): (r: bool)
    ensures svc == DownloadSvc ==> (r <==> f != Absent)
    ensures svc == MessageSvc ==> (r <==> f != RemoveRaises)
  {
    match svc
    case DownloadSvc => f != Absent
    case MessageSvc => f != RemoveRaises
  }

  // ---------------------------------------------------------------- the oracle

  /** The errors the private-link `try` handles by name: one of the channel errors (`ChannelBanned`,
      `ChannelInvalid`, `ChannelPrivate`, `ChatIdInvalid`, `ChatInvalid`), or `PeerIdInvalid`. */
  datatype Refusal = ChannelError | PeerIdInvalid

  /** What `userbot.get_messages` yields: the message, a named error, or any other exception. */
  datatype FetchReply = Fetched(msg: Message) | FetchRefused(why: Refusal) | FetchFailed(error: string)

  /** What `download_media` yields: a file on disk, no file, a named error, or any other exception. */
  datatype DownloadReply = Saved | NotSaved | DownloadRefused(why: Refusal) | DownloadFailed(error: string)

  /** What an upload (the normal one or the Telethon fallback) yields: done, a named error, or any other exception. */
  datatype UploadReply = Sent | SendRefused(why: Refusal) | SendFailed(error: string)

  /** What the bot client yields for a public link: an empty message, a completed copy, or an exception. */
  datatype PublicReply = PublicEmpty | PublicCopied | PublicFailed(error: string)

  /** Telegram, as seen by one transfer. */
  datatype World = World(
    userbot: bool,
    fetch: (Database.ChatId, int) -> FetchReply,
    download: Message -> DownloadReply,
    upload: Message -> UploadReply,
    fallbackUpload: Message -> UploadReply,
    public: (string, int) -> PublicReply)

  // ---------------------------------------------------------------- outcomes

  /** The value returned: a boolean, or the edited message object a public-copy failure returns (truthy). */
  datatype Ret = Done(ok: bool) | EditedMessage

  predicate Truthy(r: Ret) { r.EditedMessage? || r.ok }

  /** The arguments of one `add_download` call. */
  datatype Record = Record(link: string, msgId: int, chat: Database.ChatId, mediaType: string, size: int, status: string)

  /** What one transfer does to the store: whether it read the limits, the `add_traffic(sender, n, n)` it makes,
      and the history row it appends. */
  datatype Effect = Effect(ret: Ret, readLimits: bool, charged: Option<int>, record: Option<Record>)

  const Nothing := Effect(Done(false), false, None, None)

  /**
   * The two named handlers of the private-link `try`, for an error raised before (`readLimits` false) or after the
   * quota check read the limits: a channel error records a `"failed"` row of size 0, and `PeerIdInvalid` runs the
   * transfer again on the link rebuilt from the chat segment (offset 0 in the download service, the same offset in
   * the message service). A link too short for the rebuild raises `IndexError` inside the handler.
   */
  function AfterRefusal(svc: Service, w: World, link: string, msgId: int, chat: Database.ChatId, offset: int, fuel: nat,
                        limits: Option<Database.LimitsDoc>, traffic: Option<Database.Traffic>, why: Refusal, readLimits: bool): (r: Effect)
    ensures WellKept(svc, r)
    ensures readLimits ==> r.readLimits
    decreases fuel, 0
  {
    match why
    case ChannelError =>
      Effect(Done(false), readLimits, None, Some(Record(link, msgId, chat, if svc == DownloadSvc then "channel_error" else "error", 0, "failed")))
    case PeerIdInvalid =>
      match PeerRetryLink(link, msgId)
      case None => Effect(Done(false), readLimits, None, None)
      case Some(retry) =>
        if fuel == 0 then Effect(Done(false), readLimits, None, None)
        else
          var e := Run(svc, w, retry, if svc == DownloadSvc then 0 else offset, fuel - 1, limits, traffic);
          e.(readLimits := e.readLimits || readLimits)
  }

  /** The part after a message with media was fetched and the quota allowed a file of `size` bytes. */
  function AfterAllowed(svc: Service, w: World, link: string, msgId: int, chat: Database.ChatId, m: Message, size: int,
                        offset: int, fuel: nat, limits: Option<Database.LimitsDoc>, traffic: Option<Database.Traffic>): (r: Effect)
    ensures size >= 0 ==> WellKept(svc, r)
    ensures r.readLimits
    decreases fuel, 1
  {
    match w.download(m)
    case NotSaved => Effect(Done(false), true, None, Some(Record(link, msgId, chat, "download_error", size, "failed")))
    case DownloadRefused(why) => AfterRefusal(svc, w, link, msgId, chat, offset, fuel, limits, traffic, why, true)
    case DownloadFailed(e) =>
      // the handler runs with `caption` unbound: the download service's fallback call raises on it
      if svc == DownloadSvc && FallbackNeeded(svc, e) then Effect(Done(false), true, None, None)
      else Effect(Done(false), true, None, Some(Record(link, msgId, chat, "error", size, "failed")))
    case Saved =>
      match w.upload(m)
      case Sent => Effect(Done(true), true, Some(size), Some(Record(link, msgId, chat, MediaType(m.att), size, "success")))
      case SendRefused(why) => AfterRefusal(svc, w, link, msgId, chat, offset, fuel, limits, traffic, why, true)
      case SendFailed(e) =>
        if !FallbackNeeded(svc, e) then Effect(Done(false), true, None, Some(Record(link, msgId, chat, "error", size, "failed")))
        // the download service's video-note branch reads `UT` before assigning it
        else if svc == DownloadSvc && m.kind == VideoNoteMedia then
          Effect(Done(false), true, None, Some(Record(link, msgId, chat, "error", size, "failed")))
        // the fallback runs in a handler of its own, which catches every exception
        else if w.fallbackUpload(m) == Sent then
          Effect(Done(true), true, Some(size),
                 Some(Record(link, msgId, chat, if m.att.video.Some? then "video" else "document", size, "success")))
        else Effect(Done(false), true, None, Some(Record(link, msgId, chat, "error", size, "failed")))
  }

  /** The part after the message was fetched: a web page or a message without media is not transferred, and a
      file is first checked against the quota. */
  function AfterFetched(svc: Service, w: World, link: string, msgId: int, chat: Database.ChatId, m: Message, offset: int, fuel: nat,
                        limits: Option<Database.LimitsDoc>, traffic: Option<Database.Traffic>): (r: Effect)
    ensures WellKept(svc, r)
    decreases fuel, 2
  {
    if m.kind == WebPage then Effect(Done(true), false, None, None)
    else if m.kind == NoMedia then Effect(Done(m.hasText), false, None, None)
    else
      var size := FileSize(m.att);
      match Database.CheckDecision(size, limits, traffic)
      case Denied(_) => Effect(Done(false), size >= 0, None, Some(Record(link, msgId, chat, "限制", size, "failed")))
      // `limits['per_file_limit']` raises `KeyError`, which the generic handler records
      case MissingPerFileLimit => Effect(Done(false), true, None, Some(Record(link, msgId, chat, "error", size, "failed")))
      case Allowed =>
        AllowedIsNonNegative(size, limits, traffic);
        AfterAllowed(svc, w, link, msgId, chat, m, size, offset, fuel, limits, traffic)
  }

  /** The private-link part, from the fetch on. */
  function AfterFetch(svc: Service, w: World, link: string, msgId: int, chat: Database.ChatId, offset: int, fuel: nat,
                      limits: Option<Database.LimitsDoc>, traffic: Option<Database.Traffic>): (r: Effect)
    ensures WellKept(svc, r)
    decreases fuel, 3
  {
    match w.fetch(chat, msgId)
    case Fetched(m) => AfterFetched(svc, w, link, msgId, chat, m, offset, fuel, limits, traffic)
    case FetchRefused(why) => AfterRefusal(svc, w, link, msgId, chat, offset, fuel, limits, traffic, why, false)
    // before `file_size` and `msg` exist, both handlers raise `UnboundLocalError`
    case FetchFailed(_) => Nothing
  }

  /**
   * `download_message` / `get_msg` on a link and an offset. `fuel` bounds the retries (Python's recursion limit,
   * whose `RecursionError` the error decorator turns into `False`); `limits` and `traffic` are what
   * `check_traffic_limit` would read.
   */
  function Run(svc: Service, w: World, link0: string, offset: int, fuel: nat,
               limits: Option<Database.LimitsDoc>, traffic: Option<Database.Traffic>): (r: Effect)
    ensures WellKept(svc, r)
    decreases fuel, 4
  {
    if !w.userbot then Nothing
    else
      var link := Normalize(link0);
      match MessageId(link, offset)
      case None => Nothing
      case Some(msgId) =>
        if IsPrivate(link) then
          match PrivateChat(link)
          case None => Nothing
          case Some(chat) => AfterFetch(svc, w, link, msgId, chat, offset, fuel, limits, traffic)
        else
          match PublicChat(link)
          case None => Nothing
          case Some(chat) =>
            match w.public(chat, msgId)
            // the download service retries without a userbot, which always ends in the "no SESSION" reply
            case PublicEmpty =>
              if svc == DownloadSvc || fuel == 0 then Nothing
              else Run(svc, w, "t.me/b/" + chat + "/" + IntToString(msgId), offset, fuel - 1, limits, traffic)
            case PublicCopied =>
              Effect(Done(true), false, None,
                     if svc == MessageSvc then Some(Record(link, msgId, Database.ChatName(chat), "text", 0, "success")) else None)
            case PublicFailed(_) =>
              Effect(EditedMessage, false, None,
                     if svc == MessageSvc then Some(Record(link, msgId, Database.ChatName(chat), "error", 0, "failed")) else None)
  }

  // ---------------------------------------------------------------- properties

  /** No userbot: `False`, and nothing is read or written. */
  lemma NoUserbotNoRecord(svc: Service, w: World, link: string, offset: int, fuel: nat,
                          limits: Option<Database.LimitsDoc>, traffic: Option<Database.Traffic>)
    requires !w.userbot
    ensures Run(svc, w, link, offset, fuel, limits, traffic) == Effect(Done(false), false, None, None)
  {
  }

  /** The bookkeeping every exit path keeps: traffic is charged only together with a `"success"` row of the same
      size on a `True` result, for a size the quota allowed; and a `"success"` row without a charge is the
      message service's record of a public copy. */
  predicate WellKept(svc: Service, e: Effect) {
    (e.charged.Some? ==>
       e.charged.value >= 0 && e.ret == Done(true) && e.record.Some?
       && e.record.value.status == "success" && e.record.value.size == e.charged.value)
    && (e.record.Some? && e.record.value.status == "success" && e.charged.None? ==>
       svc == MessageSvc && e.record.value.mediaType == "text" && e.record.value.size == 0 && e.ret == Done(true))
    && (e.record.Some? && e.record.value.status != "success" ==>
          e.record.value.status == "failed" && (e.ret == Done(false) || e.ret == EditedMessage))
  }

  /** A size the quota allows is not negative. */
  lemma AllowedIsNonNegative(size: int, limits: Option<Database.LimitsDoc>, traffic: Option<Database.Traffic>)
    requires Database.CheckDecision(size, limits, traffic) == Database.Allowed
    ensures size >= 0
  {
  }

  /** A quota refusal writes exactly one `"failed"` row typed `"限制"` with the file's size, and charges nothing. */
  lemma QuotaDenialRecord(svc: Service, w: World, link: string, msgId: int, chat: Database.ChatId, offset: int, fuel: nat,
                          limits: Option<Database.LimitsDoc>, traffic: Option<Database.Traffic>, m: Message)
    requires w.fetch(chat, msgId) == Fetched(m) && m.kind != WebPage && m.kind != NoMedia
    requires Database.CheckDecision(FileSize(m.att), limits, traffic).Denied?
    ensures AfterFetch(svc, w, link, msgId, chat, offset, fuel, limits, traffic)
         == Effect(Done(false), FileSize(m.att) >= 0, None, Some(Record(link, msgId, chat, "限制", FileSize(m.att), "failed")))
  {
  }

  /** A successful upload charges the file's size to both directions and records the `_get_media_type` type. */
  lemma SuccessRecord(svc: Service, w: World, link: string, msgId: int, chat: Database.ChatId, offset: int, fuel: nat,
                      limits: Option<Database.LimitsDoc>, traffic: Option<Database.Traffic>, m: Message)
    requires w.fetch(chat, msgId) == Fetched(m) && m.kind != WebPage && m.kind != NoMedia
    requires Database.CheckDecision(FileSize(m.att), limits, traffic) == Database.Allowed
    requires w.download(m) == Saved && w.upload(m) == Sent
    ensures AfterFetch(svc, w, link, msgId, chat, offset, fuel, limits, traffic)
         == Effect(Done(true), true, Some(FileSize(m.att)), Some(Record(link, msgId, chat, MediaType(m.att), FileSize(m.att), "success")))
  {
    assert AfterFetch(svc, w, link, msgId, chat, offset, fuel, limits, traffic)
        == AfterFetched(svc, w, link, msgId, chat, m, offset, fuel, limits, traffic);
    assert AfterFetched(svc, w, link, msgId, chat, m, offset, fuel, limits, traffic)
        == AfterAllowed(svc, w, link, msgId, chat, m, FileSize(m.att), offset, fuel, limits, traffic);
  }

  /** The two services type a refused channel differently. */
  lemma ChannelErrorTypes(w: World, link: string, msgId: int, chat: Database.ChatId, offset: int, fuel: nat,
                          limits: Option<Database.LimitsDoc>, traffic: Option<Database.Traffic>)
    requires w.fetch(chat, msgId) == FetchRefused(ChannelError)
    ensures AfterFetch(DownloadSvc, w, link, msgId, chat, offset, fuel, limits, traffic).record
         == Some(Record(link, msgId, chat, "channel_error", 0, "failed"))
    ensures AfterFetch(MessageSvc, w, link, msgId, chat, offset, fuel, limits, traffic).record
         == Some(Record(link, msgId, chat, "error", 0, "failed"))
  {
  }

  /** A channel error from the download or from the upload is handled as one from the fetch: no charge and one
      `"failed"` row of size 0, typed `channel_error` by the download service and `error` by the message service;
      the limits were read before it. */
  lemma ChannelErrorAfterAllowed(svc: Service, w: World, link: string, msgId: int, chat: Database.ChatId, m: Message, size: int,
                                 offset: int, fuel: nat, limits: Option<Database.LimitsDoc>, traffic: Option<Database.Traffic>)
    requires w.download(m) == DownloadRefused(ChannelError) || (w.download(m) == Saved && w.upload(m) == SendRefused(ChannelError))
    ensures AfterAllowed(svc, w, link, msgId, chat, m, size, offset, fuel, limits, traffic)
         == Effect(Done(false), true, None, Some(Record(link, msgId, chat, if svc == DownloadSvc then "channel_error" else "error", 0, "failed")))
  {
  }

  /** `PeerIdInvalid` from the download or from the upload runs the whole transfer again on the rebuilt link; what
      the first attempt leaves behind is only the limits it read. */
  lemma PeerInvalidAfterAllowedRetries(svc: Service, w: World, link: string, msgId: int, chat: Database.ChatId, m: Message,
                                       size: int, offset: int, fuel: nat, limits: Option<Database.LimitsDoc>,
                                       traffic: Option<Database.Traffic>, retry: string)
    requires w.download(m) == DownloadRefused(PeerIdInvalid) || (w.download(m) == Saved && w.upload(m) == SendRefused(PeerIdInvalid))
    requires PeerRetryLink(link, msgId) == Some(retry) && fuel > 0
    ensures var e := Run(svc, w, retry, if svc == DownloadSvc then 0 else offset, fuel - 1, limits, traffic);
      AfterAllowed(svc, w, link, msgId, chat, m, size, offset, fuel, limits, traffic) == e.(readLimits := true)
  {
  }

  /** In the download service a failed upload of a video note can never fall back successfully. */
  lemma VideoNoteFallbackFails(w: World, link: string, msgId: int, chat: Database.ChatId, m: Message, size: int,
                               offset: int, fuel: nat, limits: Option<Database.LimitsDoc>, traffic: Option<Database.Traffic>)
    requires m.kind == VideoNoteMedia && w.download(m) == Saved && w.upload(m).SendFailed?
    ensures var e := AfterAllowed(DownloadSvc, w, link, msgId, chat, m, size, offset, fuel, limits, traffic);
      e.ret == Done(false) && e.charged == None && e.record == Some(Record(link, msgId, chat, "error", size, "failed"))
  {
  }

  /** The download service answers an empty public message with `False` and writes nothing. */
  lemma EmptyPublicMessageFails(w: World, link: string, offset: int, fuel: nat,
                                limits: Option<Database.LimitsDoc>, traffic: Option<Database.Traffic>)
    requires w.userbot && !IsPrivate(Normalize(link)) && MessageId(Normalize(link), offset).Some?
    requires PublicChat(Normalize(link)).Some?
    requires w.public(PublicChat(Normalize(link)).value, MessageId(Normalize(link), offset).value) == PublicEmpty
    ensures Run(DownloadSvc, w, link, offset, fuel, limits, traffic) == Effect(Done(false), false, None, None)
  {
  }

  // ---------------------------------------------------------------- the offset of a retry

  lemma NoQuestionMark(s: string)
    requires '?' !in s
    ensures !Contains(s, "?single")
  {
    forall j | 0 <= j <= |s| ensures !OccursAt(s, "?single", j) {
      if j + 7 <= |s| {
        assert s[j..j + 7][0] == s[j];
      }
    }
  }

  /**
   * The id a retried link is fetched under. The retry link already carries `msgId`, so the download service,
   * which retries with offset 0, fetches `msgId` again; the message service passes its offset a second time.
   */
  lemma RetryMessageId(prefix: string, seg: string, msgId: int, offset: int)
    requires '?' !in prefix && '?' !in seg
    ensures var l := prefix + seg + "/" + IntToString(msgId);
      Normalize(l) == l && MessageId(l, 0) == Some(msgId) && MessageId(l, offset) == Some(msgId + offset)
  {
    var d := IntToString(msgId);
    IntToStringChars(msgId);
    assert '/' !in d && '?' !in d;
    RetryLinkKept(prefix, seg, d);
    RetryLinkLast(prefix + seg, d);
    ParseIntOfIntToString(msgId);
  }

  /** A link without a question mark is its own normal form. */
  lemma RetryLinkKept(prefix: string, seg: string, d: string)
    requires '?' !in prefix && '?' !in seg && '?' !in d
    ensures Normalize(prefix + seg + "/" + d) == prefix + seg + "/" + d
  {
    var l := prefix + seg + "/" + d;
    assert '?' !in l by {
      assert l == prefix + seg + ("/" + d);
    }
    NoQuestionMark(l);
  }

  /** The last `/`-segment of `a/d`, for `d` without a slash, is `d`. */
  lemma RetryLinkLast(a: string, d: string)
    requires '/' !in d
    ensures FromEnd(Split(a + "/" + d, "/"), 1) == Some(d)
  {
    assert a + "/" + d == a + ['/'] + d;
    LastPiece(a, '/', d);
  }

  // ---------------------------------------------------------------- the store

  /** What `check_traffic_limit` reads as the limits: the stored document, else the defaults it inserts. */
  function SeenLimits(available: bool, stored: Option<Database.LimitsDoc>, defaults: Database.LimitsDoc): Option<Database.LimitsDoc> {
    if !available then None else if stored.Some? then stored else Some(defaults)
  }

  /**
   * The writes of one transfer, in the order the source makes them: the default limits document inserted while
   * checking the quota, then `add_traffic(sender, n, n)`, then `add_download`.
   */
  method TransferMessage(svc: Service, store: Database.Store, w: World, sender: int, link: string, offset: int, fuel: nat,
                         now: Database.Clock) returns (r: Ret)
    requires store.Valid()
    modifies store`limits, store`users, store`history
    ensures store.Valid()
    ensures var e := Run(svc, w, link, offset, fuel,
                         SeenLimits(old(store.available), old(store.limits), Database.DefaultLimitsDoc(store.defaults)),
                         old(store.GetUserTraffic(sender)));
      var charged := if store.available && e.charged.Some? then Database.UsersAfterTraffic(old(store.users), sender, e.charged.value, e.charged.value, now) else old(store.users);
      store.users == (if store.available && e.record.Some? then Database.UsersAfterDownload(charged, sender, e.record.value.size, e.record.value.status, now) else charged)
    ensures var e := Run(svc, w, link, offset, fuel,
                         SeenLimits(old(store.available), old(store.limits), Database.DefaultLimitsDoc(store.defaults)),
                         old(store.GetUserTraffic(sender)));
      r == e.ret
      && store.limits == (if e.readLimits && store.available && old(store.limits).None? then Some(Database.DefaultLimitsDoc(store.defaults)) else old(store.limits))
      && store.history == old(store.history) + (if store.available && e.record.Some? then [RowOf(sender, e.record.value, now)] else [])
  {
    var seen := SeenLimits(store.available, store.limits, Database.DefaultLimitsDoc(store.defaults));
    var e := Run(svc, w, link, offset, fuel, seen, store.GetUserTraffic(sender));
    ApplyEffect(store, sender, e, now);
    r := e.ret;
  }

  /** The store writes of one transfer's effect, made in the source's order. */
  method ApplyEffect(store: Database.Store, sender: int, e: Effect, now: Database.Clock)
    requires store.Valid()
    modifies store`limits, store`users, store`history
    ensures store.Valid()
    ensures var charged := if store.available && e.charged.Some? && e.charged.value >= 0
                           then Database.UsersAfterTraffic(old(store.users), sender, e.charged.value, e.charged.value, now) else old(store.users);
      store.users == (if store.available && e.record.Some? then Database.UsersAfterDownload(charged, sender, e.record.value.size, e.record.value.status, now) else charged)
    ensures store.limits == (if e.readLimits && store.available && old(store.limits).None? then Some(Database.DefaultLimitsDoc(store.defaults)) else old(store.limits))
    ensures store.history == old(store.history) + (if store.available && e.record.Some? then [RowOf(sender, e.record.value, now)] else [])
  {
    if e.readLimits {
      var _ := store.GetTrafficLimits();
    }
    if e.charged.Some? {
      var _ := store.AddTraffic(sender, e.charged.value, e.charged.value, now);
    }
    if e.record.Some? {
      var rec := e.record.value;
      var _ := store.AddDownload(sender, rec.link, rec.msgId, rec.chat, rec.mediaType, rec.size, rec.status, now);
    }
  }

  function RowOf(sender: int, rec: Record, now: Database.Clock): Database.HistoryRow {
    Database.HistoryRow(sender, rec.link, rec.msgId, rec.chat, rec.mediaType, rec.size, now.at, rec.status)
  }
}
