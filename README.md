# TG-Content-Bot-Pro in Dafny

TG-Content-Bot-Pro is a Telegram bot that copies messages, media included, out of channels and chats the user can
read but not forward. It does this through a user account (the "userbot", logged in with a session string)
alongside the bot account. This project models the bot's core and proves properties of the model:

- **Task queue and download task manager**: a priority queue of download tasks worked off by workers, and batches
  of tasks created from one link at offsets `0 .. count - 1`.
- **Transfer services**: fetching one linked message, checking the user's traffic quota, downloading and
  re-uploading the media, falling back to the second client library, and recording the outcome. This covers both
  the download service and the message service, which differ in several details.
- **Store and traffic**: the user, history, batch-task and traffic-limit collections of the database, with traffic
  charging and the quota decision; the `/traffic`, `/setlimit`, `/resettraffic` and `/totaltraffic` commands.
- **Rate limiter**: a token bucket whose rate halves on flood waits and grows after runs of clean successes.
- **`/batch` and `/cancel`**: the batch loop, its tallies and its progress reports.
- **Plugins**: the registry and the plugin manager that discovers, loads, unloads and reloads plugin modules.
- **Sessions**: configuration loading and validation, the client manager's proxy configuration and session
  checks, and the `/addsession` and `/sessions` commands.
- **Utilities**: data masking and input sanitising, duration, byte-size and clock formatting, and the exception
  hierarchy's string form.

Each Python module of the core is one Dafny module, in a file of the same name. `Wrappers` holds `Option` and
`Result`; `Text` holds the string operations Python provides (`str()`, `int()`, `strip()`, `split()`, `lower()`,
`join()`).

Objects whose methods update fields are classes with `modifies` clauses:

- the priority queue of tasks;
- the download task manager;
- the rate limiter;
- the database store;
- the plugin registry and the plugin manager;
- the batch plugin;
- the client manager;
- the settings.

Each class method is proved against a specification function, or states its whole new state. Pure code is
written as functions and lemmas.

The world outside the process enters as parameters:

- **Telegram**: what a fetch, a download, an upload or a conversation reply gives is a function passed in.
- **The clock**: the current time is an explicit argument; a sleep is the clock moving on.
- **The environment and the filesystem**: a map of variables and a directory listing.
- **Task functions and plugin hooks**: a function from a call to its outcome.
- **The MongoDB database**: its collections are the store's fields, and "no database" is a flag.

## Model

| member | source | states |
|---|---|---|
| BasePlugin.PluginRegistry.constructor | main/core/base_plugin.py:60-61 | a new registry holds no plugin |
| BasePlugin.PluginRegistry.Register | main/core/base_plugin.py:63-69 | a name already registered is refused with `插件 <name> 已注册` and changes nothing; a new plugin is filed under its name and placed last in the dictionary order; the registry stays consistent |
| BasePlugin.PluginRegistry.Unregister | main/core/base_plugin.py:71-76 | the named plugin, if any, leaves both the dictionary and its key order; an unknown name changes nothing |
| BasePlugin.PluginRegistry.GetPlugin | main/core/base_plugin.py:78-80 | a plugin comes back exactly when the name is registered, and it is the one filed under that name |
| BasePlugin.PluginRegistry.ListPlugins | main/core/base_plugin.py:82-84 | the names listed are exactly the registered ones, each once |
| BasePlugin.PluginRegistry.LoadAllPlugins | main/core/base_plugin.py:86-93 | every plugin's `on_load` runs once, in registration order; one that raises does not stop the rest; the registry is unchanged |
| BasePlugin.PluginRegistry.UnloadAllPlugins | main/core/base_plugin.py:95-102 | the same for every plugin's `on_unload` |
| PluginManager.Stem | main/core/plugin_manager.py:36 | the stem with `.py` appended gives back the file name; the bare name `.py` is its own stem |
| PluginManager.PluginNamesMembers | main/core/plugin_manager.py:33-37 | a name is discovered exactly when some `*.py` entry of the listing, other than `__init__.py`, has it as its stem |
| PluginManager.InitIsNoPlugin | main/core/plugin_manager.py:35 | `__init__` is never discovered as a plugin |
| PluginManager.PluginManager.constructor | main/core/plugin_manager.py:25-28 | nothing is loaded at first |
| PluginManager.PluginManager.DiscoverPlugins | main/core/plugin_manager.py:30-38 | the plugin names of the listing, in listing order; none when the directory does not exist |
| PluginManager.PluginManager.LoadPlugin | main/core/plugin_manager.py:40-54 | an already loaded name gives `True` with nothing changed; otherwise the result is whether the loader succeeded, and on success the module is recorded and the name appended to the load order; a failure changes nothing |
| PluginManager.PluginManager.LoadAllPlugins | main/core/plugin_manager.py:56-66 | the result has a key for exactly the discovered names, each telling whether that plugin is loaded afterwards; the loaded list only grows, by exactly the discovered names whose loader succeeds |
| PluginManager.PluginManager.UnloadPlugin | main/core/plugin_manager.py:68-91 | the result is whether the plugin was loaded; afterwards it is in neither the map nor the list, and nothing else changes |
| PluginManager.PluginManager.ReloadPlugin | main/core/plugin_manager.py:93-103 | the result is whether the loader succeeds; on success the plugin holds the new module and moves to the end of the load order, on failure it is gone |
| PluginManager.PluginManager.GetPlugin | main/core/plugin_manager.py:105-107 | a module comes back exactly when the name is loaded |
| PluginManager.PluginManager.ListLoadedPlugins | main/core/plugin_manager.py:109-111 | the loaded names, each once, and exactly those in the module map |
| PluginManager.PluginManager.IsPluginLoaded | main/core/plugin_manager.py:113-115 | searching the list agrees with membership in the module map |
| Security.TailSlice | main/utils/security.py:63 | Python's `data[-k:]`: the whole string for `k == 0`, otherwise the last `k` characters |
| Security.MaskSensitiveData | main/utils/security.py:59-63 | a string of at most `2*show` characters comes back entirely starred at the same length; a longer one keeps its first and last `show` characters and stars the middle; with `show == 0` the `data[-0:]` tail makes the result twice as long, ending in the whole input |
| Security.RemoveAll | main/utils/security.py:68-70 | after the removals none of the removed characters is left, every other character is kept, and a string without any of them is unchanged |
| Security.Sanitized | main/utils/security.py:65-71 | the sanitised text holds no dangerous character and starts and ends with no whitespace |
| Security.SanitizeInput | main/utils/security.py:65-71 | the loop of removals followed by `strip()` computes the sanitised text, which holds no dangerous character and carries no outer whitespace |
| Security.SanitizeIdempotent | main/utils/security.py:65-71 | sanitising already sanitised text changes nothing |
| MediaUtils.Split | main/utils/media_utils.py:109-112 | the divmod chain gives milliseconds below 1000, seconds and minutes below 60, hours below 24, and the parts put back together give the input |
| MediaUtils.Labels | main/utils/media_utils.py:113-117 | there are at most five labelled parts, one per unit |
| MediaUtils.TimeFormatterIsJoin | main/utils/media_utils.py:113-118 | removing the final `", "` from the concatenation leaves exactly the non-zero parts, in the order d, h, m, s, ms, joined by `", "` |
| MediaUtils.TimeFormatterShape | main/utils/media_utils.py:118 | the text is empty exactly when the input is 0 and otherwise ends with a unit letter, so never with `", "` |
| MediaUtils.LabelsEmpty | main/utils/media_utils.py:113-117 | no part is shown exactly when the duration is zero |
| MediaUtils.LastLabelUnit | main/utils/media_utils.py:113-117 | the last shown part ends with the letter of its unit |
| MediaUtils.Pad2 | main/utils/media_utils.py:16 | a two-digit field reads back as the number it pads |
| MediaUtils.Hhmmss | main/utils/media_utils.py:14-16 | the clock text is eight characters: three two-digit fields separated by `:` |
| MediaUtils.HhmmssReadBack | main/utils/media_utils.py:14-16 | the hours field is below 24 and the minutes and seconds fields below 60; reading the fields back gives the seconds since midnight, so the hours wrap modulo 24 |
| MediaUtils.ClockFace | main/utils/media_utils.py:16 | the hours, minutes and seconds of a time of day recombine to that time |
| MediaUtils.SeekTime | main/utils/media_utils.py:26 | the seek time is a clock text of eight characters |
| MediaUtils.SeekTimeIsMiddle | main/utils/media_utils.py:26 | the seek time reads back as half the duration, rounded down, modulo a day |
| MediaUtils.HumanBytesOf | main/utils/media_utils.py:94-104 | a zero size gives the empty text; otherwise the loop divides by 1024 until the value is at most 1024, and the exact value times `1024**n` is the size (above 1 when divided at all), with the unit name `Dic_powerN[n]`; the table lookup fails exactly for sizes above `1024**5` |
| MediaUtils.ScaleDown | main/utils/media_utils.py:98-103 | the scaling loop ends with a value of at most 1024 whose product with `1024**n` is exactly the size; when it divided at all, the value is above 1 and the size above `1024**n` |
| MediaUtils.TooLargeExactly | main/utils/media_utils.py:100-104 | where the loop stops, the unit index is past the table exactly when the size is above `1024**5` |
| Exceptions.NewBotException | main/exceptions/base.py:6-9 | the message and the error code are stored exactly as given; the code defaults to none |
| Exceptions.Str | main/exceptions/base.py:11-14 | a truthy code gives a string three characters longer than code and message together; no code, or an empty one, gives the message itself |
| Exceptions.StrWithCode | main/exceptions/base.py:12-13 | a coded string is `[`, the code, `] ` and the message, and each part can be read back at its offset |
| Exceptions.StrWithoutCode | main/exceptions/base.py:6-14 | with the default code, no code or an empty code, the string is exactly the message |
| Exceptions.SubclassesCoded | main/exceptions/telegram.py:5-20 | the Telegram, session and channel-access subclasses, and likewise the validation and traffic-limit ones of `main/exceptions/validation.py`, all fix a non-empty code, so their string form is bracketed |
| Config.GetConfig | main/config.py:70-92 | a value the reader produces is returned; when reading fails, an optional key falls back to its default and a required key raises `ConfigError` naming the key, and only then |
| Config.ValidationErrorsExact | main/config.py:105-127 | no message is collected exactly when all nine rules hold; at most one message per rule; each of the nine messages appears exactly when its rule is broken |
| Config.CredentialMessagesExact | main/config.py:108-113 | the API_ID, API_HASH and BOT_TOKEN messages each appear exactly when their value is missing |
| Config.AuthAndSizeMessagesExact | main/config.py:114-121 | the AUTH, MAX_WORKERS and CHUNK_SIZE messages each appear exactly when their rule is broken |
| Config.LimitMessagesExact | main/config.py:122-127 | the daily, monthly and per-file limit messages each appear exactly when that limit is negative |
| Config.NoErrorsExactly | main/config.py:105-129 | the collected list is empty exactly when every rule holds |
| Config.EveryMessageDistinct | main/config.py:108-127 | each of the nine messages, when collected, implies that its own rule was broken |
| Config.ValidationMessage | main/config.py:129-130 | the single error raised contains every collected message |
| Config.Settings.constructor | main/config.py:28-32 | freshly loaded settings hold the given values and are not yet validated |
| Config.Settings.ValidateSettings | main/config.py:94-133 | validated settings return at once; otherwise one `ConfigError` carrying every violated rule is raised and the flag stays unset, or, with nothing violated, the flag is set; success exactly when already validated or every rule holds |
| Config.ParsePieces | main/config.py:167 | at most one integer per comma piece |
| Config.GetAuthUsers | main/config.py:159-169 | an integer AUTH gives the singleton list of that integer |
| Config.IsMainUser | main/config.py:171-180 | the answer exists exactly when the AUTH list parses, and is membership in that list |
| Config.TwoAuthUsers | main/config.py:166-167 | a string AUTH of two integers separated by a comma gives both integers, in order |
| Config.ParsePiecesCons | main/config.py:167 | a piece holding an integer contributes that integer in front of the integers of the later pieces |
| Config.BlankPieceSkipped | main/config.py:167 | a piece that strips to nothing (the `if uid.strip()` filter) contributes nothing |
| Config.FailingPieceFails | main/config.py:167 | one piece that is neither blank nor an integer makes the whole list raise `ValueError` |
| Config.FailedParseHasPiece | main/config.py:167 | a list that raises has a piece that is neither blank nor an integer |
| Config.ParsePiecesFails | main/config.py:167 | the comprehension raises `ValueError` exactly when some piece is neither blank nor an integer |
| Config.AuthUsersRoundTrip | main/config.py:166-167 | any list of ids, written as a comma-separated string, reads back as that list, in order; the empty string gives the empty list |
| Config.AuthUsersRoundTripCons | main/config.py:166-167 | a list of two ids or more reads back from its comma-separated text: the first piece, then the pieces of the rest |
| Config.ValidatedLimitsNonNegative | main/config.py:122-127 | settings that pass validation hand out three non-negative default limits from `get_traffic_limits` |
| Config.DefaultsAcceptable | main/config.py:54-60 | the built-in defaults for the workers, the chunk size and the three limits pass every numeric rule |
| Clients.GetProxyConfig | main/core/clients.py:34-66 | with scheme, host and port all set, an integer port gives those three values and any other port gives none, without looking at `OTHER_PROXY_URL`; otherwise `OTHER_PROXY_URL` gives an `http` proxy on port 8080, and without it there is no proxy |
| Clients.BadPortIgnoresOtherProxy | main/core/clients.py:41-54 | a port with no digit in it disables the proxy even when `OTHER_PROXY_URL` is set |
| Clients.TelegramProxyTakesPrecedence | main/core/clients.py:37-58 | with the three `TELEGRAM_PROXY_*` variables set, removing `OTHER_PROXY_URL` from the environment does not change the configuration |
| Clients.TelethonTuple | main/core/clients.py:68-87 | a tuple exists exactly when a configuration does; it keeps host and port, and keeps the scheme except that `https` becomes `http` |
| Clients.ClientManager.constructor | main/core/clients.py:19-25 | no client exists and no proxy configuration is cached |
| Clients.ClientManager.ProxyConfigProperty | main/core/clients.py:27-32 | a cached configuration is returned unchanged; otherwise it is computed from the environment and cached, so an absent one is computed again next time |
| Clients.ClientManager.GetTelethonProxy | main/core/clients.py:68-87 | the Telethon tuple of the cached or newly computed configuration |
| Clients.ClientManager.GetPyrogramProxy | main/core/clients.py:89-91 | the cached or newly computed configuration itself |
| Clients.ClientManager.GetClientStatus | main/core/clients.py:303-311 | the status reports whether the Telethon bot exists, whether each Pyrogram client exists and is connected, whether a session is configured, and whether a proxy configuration exists once the property has been consulted |
| Clients.Clean | main/core/clients.py:238 | the cleaned text is no longer than the input and holds only base64 and pad characters; an input with none of them cleans to the empty text |
| Clients.ShapeAndLengthIsWellFormed | main/core/clients.py:240-248 | on cleaned text, the pattern check and the multiple-of-four check together are exactly well-formedness in the sense of section 4 of RFC 4648 |
| Clients.ValidateSession | main/core/clients.py:231-257 | a raw input shorter than 10 is rejected with `False`; any later failure raises, because `self.logger` is undefined; the check passes exactly for a long enough input whose cleaned text is well-formed and decodes |
| Clients.NoiseValidates | main/core/clients.py:233-254 | ten or more characters, none of them base64, clean to the empty text and validate |
| SessionCommands.ValidateSessionString | main/plugins/session_commands.py:47-60 | the empty text gives the emptiness error; a text outside `[A-Za-z0-9+/=]+` (Python's `$` allowing one trailing newline) gives the format error; a matching text below 50 characters gives the length error; acceptance, with `有效`, exactly for a matching text of at least 50 characters |
| SessionCommands.ForeignCharIsFormatError | main/plugins/session_commands.py:53-57 | a single forbidden character before the end is a format error whatever the length, since the character check comes first |
| SessionCommands.TrailingNewlineAccepted | main/plugins/session_commands.py:53 | a long enough session string is accepted with or without one trailing newline |
| SessionCommands.AddSession | main/plugins/session_commands.py:62-98 | the usage text is shown exactly when the stripped text has no argument after the command word; otherwise the session saved is the trimmed remainder, and only when it passes validation; a rejection replies with `❌` and the validation message |
| SessionCommands.ListSessionsReply | main/plugins/session_commands.py:122-143 | no sessions gives the empty reply; otherwise the reply ends with the total line for the number of sessions |
| SessionCommands.ShownName | main/plugins/session_commands.py:134 | a document without the field shows `未知`, a field stored as null (what `add_user` writes for an account without a user name, main/core/database.py:199) shows `None`, a stored name shows as it is |
| SessionCommands.NumberedHas | main/plugins/session_commands.py:132-139 | the text the loop appends for the `k`-th item, numbered `first + k`, lies inside the built message |
| SessionCommands.NumberedContained | main/plugins/session_commands.py:131-141 | whatever text frames the numbered list, the text appended for each item is inside the message |
| SessionCommands.ListSessionsShowsEntry | main/plugins/session_commands.py:131-141 | every session appears in the reply with its two lines, numbered from 1 in the order the store returns them |
| SessionCommands.NullNameListedAsNone | main/plugins/session_commands.py:134-138 | a session whose user name is stored as null is listed as `None` with its user id |
| SessionCommands.MissingNameListedAsUnknown | main/plugins/session_commands.py:134-138 | a session whose document has no user name field is listed as `未知` with its user id |
| SessionCommands.StoredNameListed | main/plugins/session_commands.py:134-138 | a session with a stored user name is listed under that name with its user id |
| SessionCommands.ListSessionsCount | main/plugins/session_commands.py:141 | the total printed in the reply reads back as the number of sessions |
| TrafficCommands.ValidateNumericInput | main/plugins/traffic_commands.py:116-124 | accepted exactly when the text is an integer and not negative, with that integer; a non-integer gives `请输入有效数字`, a negative `数值不能为负数` |
| TrafficCommands.Scaled | main/plugins/traffic_commands.py:154-180 | only `daily`, `monthly` and `file` take a number: daily and file store it times 1024², monthly times 1024³, each in its own key alone |
| TrafficCommands.SetTrafficLimit | main/plugins/traffic_commands.py:126-182 | fewer than three words give the usage text and nothing else, for every keyword; an update is made exactly for `enable`, `disable`, or a scaled keyword with a valid number, and it sets exactly one key: enabled to 1 or 0, or the scaled value; a bad number replies with its validation message and an unknown keyword with its own error, neither updating anything |
| TrafficCommands.PerFileLimitRoundTrip | main/plugins/traffic_commands.py:172-180 | `/setlimit file N` becomes the per-file update of N MiB; applied to the stored limits it sets that limit, keeps the daily and monthly ones, and a file one byte larger is then refused for its size |
| TrafficCommands.FileCommandParses | main/plugins/traffic_commands.py:129-180 | the command word, `file` and the digits of N split into three words and select the per-file update of N MiB |
| TrafficCommands.FileLimitInForce | main/core/database.py:859-903 | writing only the per-file limit keeps the other limits, and a file one byte over it is refused for its size |
| TrafficCommands.RejectedNumberUpdatesNothing | main/plugins/traffic_commands.py:156-177 | a negative or non-numeric size for a scaled keyword produces an error reply and no update |
| TrafficCommands.TrafficStats | main/plugins/traffic_commands.py:46-83 | a user without a document stays without one, since `add_traffic(sender, 0, 0)` creates nothing; limits count as shown only when `enabled` is 1; shown remainders are `max(0, limit - used)` for the day and the month, alongside the three limits |
| TrafficCommands.ShownRemainderDecides | main/plugins/traffic_commands.py:70-79 | the daily remainder shown is the one a refusal reports: a file within the per-file limit is refused for the day exactly when it exceeds that remainder |
| TrafficCommands.MissingEnabledDisagrees | main/plugins/traffic_commands.py:55 | a limits document without `enabled` is enforced by the traffic check but reported as disabled by `/traffic` |
| TrafficCommands.ResetTrafficReply | main/plugins/traffic_commands.py:189-215 | the reply for each reset type, the invalid-type reply, and the usage text for fewer than two words |
| TrafficCommands.ResetTraffic | main/plugins/traffic_commands.py:189-215 | the command only replies: the store's users and limits are the same afterwards |
| TrafficCommands.FormatBytesUnit | main/plugins/traffic_commands.py:220-229 | B exactly below 1024; any larger unit is at most the value, and any unit below GB is more than a 1024th of it |
| TrafficCommands.FormatBytesMonotone | main/plugins/traffic_commands.py:220-229 | a larger byte count never gets a smaller unit |
| TrafficCommands.FormatBytesScaledRange | main/plugins/traffic_commands.py:224-227 | in KB and MB the number shown lies in `[1, 1024)` |
| Database.UpsertUser | main/core/database.py:195-222 | the upsert adds the id if it is new and leaves every other user as it was |
| Database.UpsertNewUser | main/core/database.py:204-219 | a new user starts unbanned, with the given authorisation, no downloads, six zero traffic counters, and today's day and month as period keys |
| Database.UpsertExistingUser | main/core/database.py:198-203 | for an existing id only the three names and `last_used` change; the authorisation flag and the traffic counters stay |
| Database.WithFlag | main/core/database.py:275-277 | the chosen flag takes the new value and the other flag is untouched |
| Database.SetFlag | main/core/database.py:275-278 | a `$set` without upsert: an absent id stays absent, and only the targeted user's flag changes |
| Database.FlagChangeIsVisible | main/core/database.py:279 | `modified_count > 0` holds exactly when the update changes the collection: the user exists and the flag differs |
| Database.UsersAfterDownload | main/core/database.py:363-376 | recording a download adds no user and changes no other user |
| Database.DownloadCountsOnlySuccess | main/core/database.py:363-376 | a `"success"` row adds one download and its size and stamps `last_download`; any other status leaves the user as it was; traffic counters never move |
| Database.UsersAfterTraffic | main/core/database.py:695-711 | recording traffic creates no user and changes no other user |
| Database.TrafficAccumulates | main/core/database.py:695-711 | each upload counter grows by the upload and each download counter by the download, with no reset when the period keys move to today; flags and download counts stay |
| Database.TrafficChangeIsVisible | main/core/database.py:713 | `modified_count > 0` exactly when the user exists and the update changes its document |
| Database.SumAfterUpdate | main/core/database.py:763-797 | changing one listed user moves a column's sum by exactly that user's change in the column |
| Database.TotalsAfterTraffic | main/core/database.py:749-804 | recording traffic raises the all-time sums by the upload and the download, and today's and this month's sums by the download plus whatever that user had counted under an earlier period key |
| Database.LimitsAfterUpdate | main/core/database.py:859-875 | an update with no key changes nothing; otherwise the document exists afterwards, given keys take their new values and the others keep theirs |
| Database.CheckOrder | main/core/database.py:890-903 | a negative size is refused first; no document, or `enabled == 0`, allows; a file over the per-file limit is refused before the user's traffic is read, so the traffic cannot change that outcome; a user without traffic is allowed |
| Database.CheckBoundary | main/core/database.py:905-916 | within the per-file limit, a transfer is allowed exactly when `used + size <= limit` holds for both the day and the month; a refusal reports `max(0, limit - used)`, the day first |
| Database.Store.constructor | main/core/database.py:64-69 | an empty store, with or without a database |
| Database.Store.AddUser | main/core/database.py:173-226 | without a database, `False` and no change; otherwise `True`, the upsert is applied, and a new id joins the collection order |
| Database.Store.SetUserFlag | main/core/database.py:260-306 | without a database, `False`; otherwise the flag is set without upsert and the answer is whether it actually changed |
| Database.Store.BanUser | main/core/database.py:260-282 | `True` exactly when an existing unbanned user becomes banned |
| Database.Store.UnbanUser | main/core/database.py:284-306 | `True` exactly when an existing banned user becomes unbanned |
| Database.Store.AuthorizeUser | main/core/database.py:429-451 | `True` exactly when an existing unauthorised user becomes authorised |
| Database.Store.UnauthorizeUser | main/core/database.py:453-480 | a main user is never unauthorised, and neither is anyone when the AUTH setting does not parse; otherwise `True` exactly when the stored flag goes from set to unset |
| Database.Store.IsUserAuthorized | main/core/database.py:482-498 | a main user is always authorised; anyone else is authorised exactly when stored with the flag set |
| Database.Store.AddDownload | main/core/database.py:327-381 | with a database, exactly one history row is appended, carrying the call's fields, and a success updates the user's statistics; without one, nothing changes |
| Database.Store.CreateBatchTask | main/core/database.py:556-586 | with a database, a running task with zero completed items is appended and its id returned; without one, none |
| Database.Store.AddTraffic | main/core/database.py:673-716 | without a database or with a negative argument, `False` and no change; otherwise the counters accumulate and the answer is whether the document changed |
| Database.Store.GetUserTraffic | main/core/database.py:718-747 | the counters exist exactly for a stored user when the database is there, and are that user's |
| Database.Store.GetTotalTraffic | main/core/database.py:749-807 | the totals exist exactly when the database is there |
| Database.Store.GetTrafficLimits | main/core/database.py:809-836 | the stored document is returned; when there is none, the defaults with `enabled` 1 are inserted and returned |
| Database.Store.UpdateTrafficLimits | main/core/database.py:838-878 | writes only the given keys, with upsert, and answers `True` with a database even when no key is given |
| Database.Store.CheckTrafficLimit | main/core/database.py:880-916 | users and history are never changed; a negative size is refused without reading the limits; otherwise the only write is the default document inserted on first use, and the answer is the ordered decision over the document and the user's traffic |
| Transfer.Normalize | main/services/download_service.py:69-70 | the normalised link is a prefix of the given one, and a link without `?single` is kept whole |
| Transfer.MessageId | main/services/download_service.py:72 | an id exists exactly when the last `/` segment is an integer, and it is that integer plus the offset |
| Transfer.PrivateChat | main/services/download_service.py:75-79 | a `t.me/b/` link gives its second-to-last segment as a name; any other private link gives the integer of `-100` followed by that segment, or an error when that is not an integer |
| Transfer.PublicChat | main/services/download_service.py:406 | the chat of a public link is the segment after the first `/` that follows `t.me` |
| Transfer.PeerRetryLink | main/services/download_service.py:219-225 | a retry link exists exactly when the link has three segments; it is `t.me/c/` or `t.me/b/`, depending on whether the third-to-last segment is an integer, then that segment and the offset id |
| Transfer.FileSize | main/services/download_service.py:244-266 | the size of the first attachment present in the order document, video, audio, photo, voice, video note; 0 without any |
| Transfer.MediaType | main/services/download_service.py:282-304 | the type of the first attachment present in the different order video note, video, photo, document, audio, voice; `unknown` without any |
| Transfer.OrdersDisagree | main/services/message_service.py:286-325 | the two orders disagree: a message with both a document and a video is sized by the document and typed as video |
| Transfer.DownloadTranslate | main/services/download_service.py:306-324 | the rules are tried in order: the media phrase case-sensitively, then `file size` and `timeout` on the lowercased message, then `FloodWait` case-sensitively; otherwise the message unchanged |
| Transfer.FirstTranslation | main/services/message_service.py:329-338 | no matching key leaves the message unchanged; the first key that matches decides |
| Transfer.MessageTranslate | main/services/message_service.py:327-338 | the loop over the table in dictionary order, each key matched against the lowercased message, computes the first-match translation |
| Transfer.FloodWaitOnlyInDownloadService | main/services/message_service.py:329-338 | a FloodWait message that matches no other rule is translated by the download service and passed through unchanged by the message service |
| Transfer.LowerNeverRemovesLowercase | main/services/message_service.py:336 | a pattern without capitals found in a message is still found in its lowercased form, so lowercasing only widens the media rule |
| Transfer.FallbackNeeded | main/services/download_service.py:326-339 | a fallback is needed exactly for the three markers, or for `File size equals to 0 B`; the download service requires that text to be the whole message, while the message service only requires it to occur |
| Transfer.FallbackWider | main/services/message_service.py:340-346 | every error that makes the download service fall back also makes the message service fall back |
| Transfer.CleanupResult | main/services/message_service.py:348-357 | the download service answers whether the file existed; the message service answers `False` only when removal raises |
| Transfer.AfterAllowed | main/services/download_service.py:114-240 | after an allowed quota check, every path keeps the bookkeeping: a charge goes only with a `True` result and a `"success"` row of the same size, and every other row is `"failed"` with a false result; a channel error or `PeerIdInvalid` from the download or the upload takes the named handlers, and the limits count as read on every path |
| Transfer.AfterRefusal | main/services/download_service.py:214-225 | the named handlers keep the bookkeeping: a channel error gives one `"failed"` row of size 0 and no charge, `PeerIdInvalid` gives the retried transfer's effect, and limits read before the error stay read |
| Transfer.AfterFetched | main/services/download_service.py:84-112 | the same bookkeeping from the fetched message on: web pages and media-less messages write nothing, and a quota refusal writes only a `"failed"` row |
| Transfer.AfterFetch | main/services/download_service.py:82-240 | the same from the fetch on; a fetch refused with a channel error or `PeerIdInvalid` goes to the same named handlers, before any limits were read |
| Transfer.Run | main/services/download_service.py:42-242 | every exit path of a transfer keeps that bookkeeping, including a retry after `PeerIdInvalid` from the fetch, the download or the upload and a channel error from any of the three; the only `"success"` row without a charge is the message service's record of a public copy |
| Transfer.NoUserbotNoRecord | main/services/download_service.py:60-62 | without a userbot the answer is `False`, with nothing read or written |
| Transfer.AllowedIsNonNegative | main/core/database.py:890-891 | a size the quota allows is never negative |
| Transfer.QuotaDenialRecord | main/services/download_service.py:105-112 | a quota refusal writes exactly one `"failed"` row typed `限制` with the file's size, and charges nothing |
| Transfer.SuccessRecord | main/services/download_service.py:203-212 | a successful upload charges the file's size to both directions and writes a `"success"` row carrying the `_get_media_type` type |
| Transfer.ChannelErrorTypes | main/services/message_service.py:211-214 | a refused channel is recorded as `channel_error` by the download service and as `error` by the message service, both with size 0 |
| Transfer.ChannelErrorAfterAllowed | main/services/message_service.py:111-214 | a channel error raised by `download_media` or by the upload writes the same size-0 row as one raised by the fetch (`channel_error` in the download service, `error` in the message service), with no charge and a false result |
| Transfer.PeerInvalidAfterAllowedRetries | main/services/download_service.py:114-225 | `PeerIdInvalid` raised by `download_media` or by the upload re-runs the whole transfer on the rebuilt link, and its effect is the retry's, plus the limits the first attempt read |
| Transfer.VideoNoteFallbackFails | main/services/download_service.py:365-366 | in the download service a video note never falls back successfully: its branch reads `UT` before assigning it, so a failed upload ends in an `"error"` row and no charge |
| Transfer.EmptyPublicMessageFails | main/services/download_service.py:409-411 | the download service answers an empty public message with `False` and writes nothing, since the retry runs without a userbot |
| Transfer.RetryMessageId | main/services/message_service.py:215-222 | a rebuilt link already carries the offset id: fetched with offset 0, as the download service does, it gives that id again, while the message service's second offset adds the offset twice |
| Transfer.TransferMessage | main/services/download_service.py:42-242 | the store afterwards holds exactly the writes the transfer's effect names, in the source's order: the default limits document when the quota check read limits and none was stored, the traffic charge, then one history row; the answer is the effect's answer |
| Transfer.ApplyEffect | main/services/download_service.py:207-209 | the limits document is inserted only when the limits were read and none was stored; a non-negative charge updates the user record before the download row does; exactly one history row is appended when the effect has one and the store is available |
| TaskQueue.Execute | main/core/task_queue.py:184-193 | a task without a function fails with the `任务函数未定义` error; otherwise the outcome is its function's on its arguments |
| TaskQueue.MinKeyIndex | main/core/task_queue.py:121 | the position of an entry whose key is no larger than any other's, the entry the min-heap hands out |
| TaskQueue.HighestPriorityFirst | main/core/task_queue.py:217-218 | with keys stored as `-priority`, the entry handed out belongs to a task of the highest priority queued |
| TaskQueue.RemoveAt | main/core/task_queue.py:121 | the queue after the `get()`: one shorter, the entries before the position kept, those after it shifted down by one |
| TaskQueue.RemoveKeepsQueued | main/core/task_queue.py:121 | taking out another task's entry leaves a task queued |
| TaskQueue.Finished | main/core/task_queue.py:141-166 | a run's record keeps the task's id, name, priority and function, gets its start and completion times and a final status: completed with the returned value, or failed with the error's text |
| TaskQueue.Counted | main/core/task_queue.py:151-170 | a run adds one to the total and one to exactly the completed or the failed counter |
| TaskQueue.DropKeepsConsistent | main/core/task_queue.py:124-127 | discarding the entry of a task no longer in `running_tasks` keeps the queue consistent: running and completed disjoint, counters adding up, each running task queued once under `-priority`, each completed one final |
| TaskQueue.FinishKeepsConsistent | main/core/task_queue.py:144-166 | moving the dequeued task into `completed_tasks` with a final record keeps the queue consistent |
| TaskQueue.AddKeepsConsistent | main/core/task_queue.py:203-221 | queueing a fresh pending task under a new id keeps the queue consistent |
| TaskQueue.CancelKeepsConsistent | main/core/task_queue.py:255-264 | moving a running task into `completed_tasks` as cancelled, counting it, keeps the queue consistent although its entry stays queued |
| TaskQueue.ForgetKeepsConsistent | main/core/task_queue.py:292-307 | removing completed records keeps the queue consistent |
| TaskQueue.ImprovedTaskQueue.constructor | main/core/task_queue.py:54-71 | an empty, stopped queue with zero counters and the given sizes |
| TaskQueue.ImprovedTaskQueue.Start | main/core/task_queue.py:77-88 | starting a running queue changes nothing; otherwise it runs with `max_workers` workers |
| TaskQueue.ImprovedTaskQueue.Stop | main/core/task_queue.py:90-112 | afterwards the queue is stopped |
| TaskQueue.ImprovedTaskQueue.AddTask | main/core/task_queue.py:195-224 | a stopped queue refuses with `任务队列未运行`, a full one with `任务队列已满 (最大容量: N)`, both changing nothing; otherwise a fresh id is returned, its entry goes in under `-priority` and a pending record is filed under it |
| TaskQueue.ImprovedTaskQueue.Step | main/core/task_queue.py:114-182 | one pass of a worker: nothing while stopped or empty; otherwise the smallest-key entry leaves the queue and is dropped when its task was cancelled, or its task is run, moved into `completed_tasks` with its outcome and counted |
| TaskQueue.ImprovedTaskQueue.DropEntry | main/core/task_queue.py:124-127 | the dequeued entry of a cancelled task is discarded and nothing else changes |
| TaskQueue.ImprovedTaskQueue.RunEntry | main/core/task_queue.py:138-173 | the dequeued task's outcome becomes its completed record and its counter, and it leaves `running_tasks` |
| TaskQueue.ImprovedTaskQueue.GetTaskStatus | main/core/task_queue.py:226-237 | a record exists exactly for a running or completed id; it carries that id, and it is pending exactly when that id is still in `running_tasks` |
| TaskQueue.ImprovedTaskQueue.GetQueueStats | main/core/task_queue.py:239-249 | the sizes of the queue, of both dictionaries and of the worker list, with counters whose total is the sum of the three outcomes |
| TaskQueue.ImprovedTaskQueue.CancelTask | main/core/task_queue.py:251-273 | succeeds exactly for a task in `running_tasks`, moving it into `completed_tasks` as cancelled and counting it; any other id changes nothing |
| TaskQueue.SiftUpAsWritten | main/core/task_queue.py:218 | a push that goes through leaves a permutation of the old entries and the new one |
| TaskQueue.SiftUpTieRaises | main/core/task_queue.py:218 | an entry with the heap's smallest key, equal to the root's, raises on its way up |
| TaskQueue.PushAtTopKeyRaises | main/core/task_queue.py:218 | pushing an entry whose key equals the heap's smallest raises |
| TaskQueue.BatchSecondPushRaises | main/services/download_task_manager.py:97-104 | of two priority-1 tasks pushed onto an empty queue, the first is queued and the second raises |
| TaskQueue.ImprovedTaskQueue.ClearCompletedTasks | main/core/task_queue.py:292-309 | without an age every completed record goes; with one, exactly those completed more than that many seconds ago go and the others stay |
| TaskQueue.ImprovedTaskQueue.ExpiredIds | main/core/task_queue.py:300-304 | the collected ids are exactly those of the completed records older than the limit |
| TaskQueue.ImprovedTaskQueue.RemoveCompleted | main/core/task_queue.py:306-307 | every listed id leaves `completed_tasks`, and only those |
| DownloadTaskManager.TaskName | main/services/download_task_manager.py:35 | a task name starts with `下载_` |
| DownloadTaskManager.TaskNameOffset | main/services/download_task_manager.py:35 | the offset is read back from a task name as its last `_`-separated piece |
| DownloadTaskManager.DownloadRequestOf | main/services/download_task_manager.py:50-64 | a stored call is accepted exactly when it has no positional arguments and exactly the keywords `sender`, `msg_link` and `offset` of the right kinds; it asks for those values with `edit_id` 0 |
| DownloadTaskManager.QueuedCallRoundTrip | main/services/download_task_manager.py:38-64 | the call a download task stores is read back as the sender, link and offset it was queued with |
| DownloadTaskManager.BatchEntries | main/services/download_task_manager.py:97-103 | the queue entries of `n` batch tasks: consecutive ids, all with key -1, in order |
| DownloadTaskManager.BatchTasks | main/services/download_task_manager.py:97-103 | the running records of a batch are filed under exactly the `n` consecutive ids |
| DownloadTaskManager.BatchTaskValues | main/services/download_task_manager.py:97-103 | batch task `first + j` carries offset `j`, priority 1 and the batch's sender and link |
| DownloadTaskManager.BatchStep | main/services/download_task_manager.py:97-104 | filing the next task extends the batch's records by exactly that task |
| DownloadTaskManager.Accepted | main/services/download_task_manager.py:97-104 | a batch of `count` is accepted whole when the queue runs and has room for all; nothing is accepted from a stopped or full queue or for a count of zero or less; never more than the count |
| DownloadTaskManager.AcceptedAtRefusal | main/services/download_task_manager.py:97-104 | when the queue refuses the `i`-th task, `i` tasks were accepted |
| DownloadTaskManager.AcceptedAtEnd | main/services/download_task_manager.py:97-107 | when the loop finishes, every task was accepted |
| DownloadTaskManager.DownloadTaskManager.constructor | main/services/download_task_manager.py:18-21 | a fresh, empty and stopped queue of capacity 1000 with the given worker count |
| DownloadTaskManager.DownloadTaskManager.Start | main/services/download_task_manager.py:23-26 | afterwards the queue runs, with `max_workers` workers if it was stopped |
| DownloadTaskManager.DownloadTaskManager.Stop | main/services/download_task_manager.py:28-31 | afterwards the queue is stopped |
| DownloadTaskManager.DownloadTaskManager.AddDownloadTask | main/services/download_task_manager.py:33-48 | the queue's refusals propagate unchanged; otherwise the new id's record is the named download task with its call, at the given priority |
| DownloadTaskManager.DownloadTaskManager.CreateBatchTask | main/services/download_task_manager.py:89-107 | the queue holds exactly the accepted prefix of the batch afterwards; the answer is `batch_<timestamp>` exactly when the whole batch was accepted, and otherwise the first refusal |
| DownloadTaskManager.DownloadTaskManager.AddBatchTasks | main/services/download_task_manager.py:97-104 | the loop stops at `count` or at the first refusal, which it reports; the tasks added are the batch's first ones, in offset order |
| DownloadTaskManager.DownloadTaskManager.AddBatchMember | main/services/download_task_manager.py:98-103 | the `i`-th task is added exactly when the queue runs and has room; then the batch extends by that task |
| DownloadTaskManager.DownloadTaskManager.GetTaskStatus | main/services/download_task_manager.py:73-75 | a record exists exactly for a running or completed id and carries that id |
| DownloadTaskManager.DownloadTaskManager.CancelTask | main/services/download_task_manager.py:77-79 | succeeds exactly for a running task: it leaves `running_tasks`, its record goes into `completed_tasks` as cancelled with the completion time, no other completed record changes, and the total and cancelled counters go up by one; otherwise nothing changes |
| DownloadTaskManager.DownloadTaskManager.GetQueueStats | main/services/download_task_manager.py:81-83 | the queue's sizes, with counters whose total is the sum of the three outcomes |
| RateLimiter.Refill | main/core/rate_limiter.py:44 | the bucket after a wait is full or holds exactly what it held plus what the wait earned, never above the burst, and it stays non-negative |
| RateLimiter.RefillMonotone | main/core/rate_limiter.py:40-44 | waiting never loses tokens, and a longer wait never gives fewer |
| RateLimiter.RefillComposes | main/core/rate_limiter.py:40-45 | refilling over two spans one after the other is refilling once over their sum, so how often the bucket is looked at does not matter |
| RateLimiter.WaitTime | main/core/rate_limiter.py:53 | the wait is positive when tokens are missing, and the wait at the current rate earns exactly the missing tokens |
| RateLimiter.Slowed | main/core/rate_limiter.py:121 | a flood wait halves the rate but never below the minimum, and keeps a positive rate positive |
| RateLimiter.SpedUp | main/core/rate_limiter.py:147 | a speed-up multiplies the rate by 1.2, but never above the maximum |
| RateLimiter.AdjustmentsStayInBounds | main/core/rate_limiter.py:121-149 | a rate between the minimum and the maximum stays between them: slowing never raises it, speeding up never lowers it |
| RateLimiter.RepeatedFloodWaits | main/core/rate_limiter.py:112-123 | `k` flood waits in a row divide the rate by `2^k`, with the minimum as the floor |
| RateLimiter.Adjusted | main/core/rate_limiter.py:143-150 | the rate changes only when there was no flood wait and at least 10 successes, and a rate within the maximum never goes down nor above it |
| RateLimiter.AdjustedSpeedsUp | main/core/rate_limiter.py:145-149 | after 10 clean successes a positive rate below the maximum strictly rises |
| RateLimiter.AdaptiveRateLimiter.constructor | main/core/rate_limiter.py:102-110 | a full, open bucket at the initial rate, with both counters at zero and both clocks at the creation time |
| RateLimiter.AdaptiveRateLimiter.Available | main/core/rate_limiter.py:66-68 | the tokens the bucket would hold now lie between zero and the burst |
| RateLimiter.AdaptiveRateLimiter.Acquire | main/core/rate_limiter.py:34-59 | a closed limiter raises `速率限制器已关闭` and changes nothing; with enough tokens they are taken at once with no wait; otherwise the caller waits exactly the time the missing tokens take and the bucket is left empty |
| RateLimiter.AdaptiveRateLimiter.GetAvailableTokens | main/core/rate_limiter.py:61-68 | 0 when closed, otherwise the refilled bucket, always between zero and the burst, with nothing changed |
| RateLimiter.AdaptiveRateLimiter.UpdateRate | main/core/rate_limiter.py:70-92 | a rate that is not positive raises `速率必须大于0` and changes nothing; with a running loop the bucket is refilled at the old rate, then the new one is installed; without one nothing changes |
| RateLimiter.AdaptiveRateLimiter.Close | main/core/rate_limiter.py:94-96 | afterwards the limiter is closed |
| RateLimiter.AdaptiveRateLimiter.OnFloodWait | main/core/rate_limiter.py:112-127 | on an open limiter the flood wait is counted, the rate is slowed and the sleep is one second longer than asked; a closed one changes nothing |
| RateLimiter.AdaptiveRateLimiter.OnSuccess | main/core/rate_limiter.py:129-141 | on an open limiter the success is counted; once 60 seconds have passed since the last adjustment the rate is adjusted, both counters restart and the interval restarts; a closed one changes nothing |
| RateLimiter.AdaptiveRateLimiter.AdjustRate | main/core/rate_limiter.py:143-154 | the rate becomes the adjusted one and both counters restart |
| Batch.Dones | main/plugins/batch.py:176-182 | the item counts of the progress reports, in the order they were sent, never more of them than reports |
| Batch.DonesSnoc | main/plugins/batch.py:176-182 | sending one more message adds its item count to that list exactly when it is a progress report |
| Batch.PercentBound | main/plugins/batch.py:177 | `done * 100 // count` lies between 0 and 100 whenever `1 <= done <= count` |
| Batch.AppendOffset | main/plugins/batch.py:149-166 | downloading offset `i` once or twice, after offsets `0 .. i - 1` in rising order, gives offsets `0 .. i` in rising order |
| Batch.AppendReport | main/plugins/batch.py:176-187 | one more message keeps every progress report well formed and extends the schedule of reports by its count |
| Batch.AdvanceKeepsInv | main/plugins/batch.py:147-184 | an iteration that goes through adds exactly one to `completed + failed`, downloads offset `i` and sends the report due after item `i + 1` |
| Batch.HaltGivesOutcome | main/plugins/batch.py:137-160 | leaving the loop at iteration `i` keeps the tallies, sends no progress report and downloads no offset beyond `i` |
| Batch.LoopGivesOutcome | main/plugins/batch.py:135-184 | from any state that satisfies the loop invariant, the loop ends with the tallies equal to the iterations done, rising offsets below `count` covering every iteration done, and the progress reports on schedule |
| Batch.BatchOutcome | main/plugins/batch.py:127-188 | a whole batch: the tallies add up to the items processed, which is `count` exactly when nothing stopped it; iteration `i` downloads offset `i`; progress comes after every fifth item and after the last, with the running tallies and a percent between 0 and 100; a batch that did not raise ends with the summary |
| Batch.Range | main/plugins/batch.py:135 | the offsets `0 .. n - 1` in order |
| Batch.LoopWhenDownloadsReturn | main/plugins/batch.py:135-155 | when every download returns and nobody cancels, the loop runs out, having downloaded each offset once, in order |
| Batch.DownloadsReturn | main/plugins/batch.py:127-188 | when every download returns and nobody cancels, the batch handles every item, downloading each offset exactly once, and ends with the summary |
| Batch.BatchPlugin.constructor | main/plugins/batch.py:21-23 | nobody has a batch in progress |
| Batch.BatchPlugin.CancelCommand | main/plugins/batch.py:45-53 | the sender leaves `batch_users`; the reply says `已取消。` exactly when they were in it, and `没有正在进行的批量任务。` otherwise |
| Batch.BatchPlugin.RunBatch | main/plugins/batch.py:127-188 | the loop's tallies, messages and downloads are those of the batch's specification, and the sender leaves `batch_users` exactly when the batch was cancelled |
| Batch.BatchPlugin.BatchCommand | main/plugins/batch.py:55-125 | ignored outside private chats; without a userbot, while the sender's batch runs, on a timeout, without a link, for a count that is not an integer or above 100, exactly one reply and no change; otherwise the batch of that count runs and the sender is out of `batch_users` afterwards |
| Text.ParseInt | main/plugins/batch.py:110 | Python `int()` of a reply: a parsed value needs some text left after stripping; text with no digit never parses |
| Text.ParseIntNeedsDigit | main/plugins/batch.py:109-116 | a reply without any digit is refused with `ValueError` |
| Text.ParseIntOfIntToString | main/services/download_task_manager.py:35 | `int(str(i)) == i`: a number written with `str()` reads back as itself |
| Text.NaturalReadBack | main/services/download_task_manager.py:35 | a non-negative number written in decimal reads back as itself |
| Text.NegativeReadBack | main/services/download_task_manager.py:35 | a negative number written with its minus sign reads back as itself |
| Text.IntToString | main/services/download_task_manager.py:35 | `str()` of an integer is non-empty and starts with `-` exactly for a negative one |
| Text.Strip | main/plugins/session_commands.py:65 | `str.strip()`: no longer than its argument, made of its characters, and neither starting nor ending with whitespace |
| Text.StripOfStripped | main/plugins/session_commands.py:80 | stripping a string that neither starts nor ends with whitespace changes nothing |
| Text.Words | main/plugins/traffic_commands.py:129 | `str.split()`: every piece is non-empty and free of whitespace |
| Text.WordsOfThree | main/plugins/traffic_commands.py:129 | three words joined by single spaces split back into those three words |
| Text.SplitOnce | main/plugins/session_commands.py:67 | `str.split(maxsplit=1)`: at most two pieces; the first is the first word, and the second, when present, is non-empty and starts with no whitespace |
| Text.Lower | main/services/message_service.py:336 | `str.lower()` on ASCII: same length, each character lowered in place |
| Text.LastPiece | main/services/download_service.py:72 | the last piece of a string split on `c` is whatever follows its last `c`, the reading `split("/")[-1]` relies on |

## Left out

- Telegram and MongoDB I/O: the client libraries' calls are oracles, and nothing about the network, connection setup or reconnection is modelled; the database's connection plumbing and index creation are left out.
- Concurrency: workers, locks, the event loop and coroutine interleaving are not modelled; each worker pass, each command and each limiter call is one atomic step.
- Floating point: Python floats are Dafny reals, so rounding in the limiter's arithmetic is not modelled; the decimal text of `format_bytes`, `_format_bytes`, `humanbytes` and the progress bars is not modelled, only the unit choice and the scaled value.
- Text: `lower()` and `strip()` are modelled on ASCII letters and ASCII whitespace; `int()` is modelled without underscores or non-ASCII digits.
- Task ids: `uuid4()` strings are replaced by a counter that is fresh by construction.
- The heap: the queue entries are `(-priority, task)` tuples, and Python compares the task records when two keys are equal. Those records define no ordering, so the source raises `TypeError` whenever two entries with equal keys are compared. The model does not raise there and behaves as if ties were broken by an arbitrary order; the as-written behaviour of the push is kept apart, under "## Findings".
- TaskQueue.ImprovedTaskQueue.AddTask: accepts an entry whose key equals that of a queued entry; the source raises `TypeError` when the heap push compares the two, after the entry went into the heap but before the record goes into `running_tasks`.
- TaskQueue.ImprovedTaskQueue.Step: takes some entry of smallest key; the source's `heappop` raises `TypeError` when it compares two entries with equal keys while restoring the heap, and that entry is lost.
- DownloadTaskManager.DownloadTaskManager.AddDownloadTask: inherits the tie of `AddTask`; a download queued at the priority of an entry it meets on its way up the heap raises in the source.
- DownloadTaskManager.DownloadTaskManager.CreateBatchTask: every task of a batch has priority 1, so in the source the second task added to an empty queue already raises `TypeError`, which escapes the loop; the model accepts the whole batch as its room allows.
- DownloadTaskManager.DownloadTaskManager.AddBatchTasks: counts the equal-priority tasks as accepted, where the source raises at the first tie.
- DownloadTaskManager.DownloadTaskManager.AddBatchMember: adds the task whatever the keys already queued, where the source raises on a tie.
- DownloadTaskManager.Accepted: counts acceptances by room alone; it does not stop at the first equal-key comparison of the heap.
- DownloadTaskManager.AcceptedAtEnd: the whole batch is accepted only in the model's tie-free reading of the heap.
- ImprovedTaskQueue: a task observed while it executes (status `running`) is not modelled, because a worker pass is atomic; so is cancelling a task during its execution.
- `wait_for_task`: the polling loop over the clock is left out, in the queue and in the download task manager.
- `clear_completed_tasks` collects the ids in ascending order instead of the dictionary's insertion order; the set that is removed is the same.
- The batch-progress methods `update_batch_progress`, `complete_batch_task` and `cancel_batch_task` only log, and `process_batch_download` is an alias of `create_batch_task`; none are modelled separately.
- Database.Store.GetTotalTraffic: the sums are taken in the order users joined the collection, since Mongo's aggregation order is unspecified; `/totaltraffic`'s text layout is not modelled.
- Database.Store: the `not self.db` guards (main/core/database.py:162, 599, 623, 652, 685, …) are read as "no database" (`self.db is None`); with pymongo 4 the truth test of a `Database` object raises instead, which the model does not capture.
- Transfer.Run: the recursion of `download_message` through its retries is bounded by a `fuel` argument, which stands for Python's recursion limit; the `RecursionError` it raises is turned into `False` by the error handler, as an exhausted fuel is.
- Transfer: the thumbnail and screenshot helpers (`_get_thumbnail`, ffmpeg) and the attribute extraction behind the upload call are left out; the upload's outcome is an oracle. A named error (channel error or `PeerIdInvalid`) from the other Telegram calls inside the `try` (the message edits, `edit.delete()`, `send_message`) is not modelled; those calls always succeed in the model. The downloaded file a `PeerIdInvalid` retry leaves on disk is not modelled either.
- Transfer: progress callbacks and the editing of progress messages are left out; a progress edit that fails is assumed to be swallowed, as the source swallows it.
- Batch: deleting the conversation and progress messages after a batch, and the sleeps, are left out; a progress report whose sending fails is still listed.
- Batch: the `FloodWait` branch of `_run_batch` is modelled, but `download_message` is wrapped by an error handler that returns `False` for every exception, so with the download service that branch is never taken.
- Batch: the `FORCESUB` check is an empty branch in the source and is left out.
- Security: the token, hashing and encryption helpers in lines 20-57 of `main/utils/security.py`, which wrap `secrets`, `hashlib` and `cryptography`, are left out; so is the session-string encryption in `main/services/session_service.py`.
- MediaUtils: `get_link`'s regular expression, `join_chat` and the ffmpeg screenshot are left out.
- PluginManager: removing the module from `sys.modules` on unload is not modelled; the import machinery is a loader function passed in.
- BasePlugin: the `get_config`/`set_config` stubs and the abstract `on_load`/`on_unload` hooks of `BasePlugin` are behaviour of each plugin; hooks are passed in as functions.
- RateLimiter.AdaptiveRateLimiter.constructor: requires a positive rate, a non-negative burst and a positive maximum rate, which the source does not check; a limiter built otherwise could divide by zero in `acquire`.
- RateLimiter.AdaptiveRateLimiter.UpdateRate: the update scheduled with `ensure_future` is modelled as running at once, at the clock reading given.
- The base `RateLimiter` is not a separate class: it is `AdaptiveRateLimiter` with `on_flood_wait` and `on_success` never called.
- Clients: starting and stopping the clients, `refresh_userbot_session` and the session-service storage are left out; the client manager only models its proxy configuration, its session check and its status.
- SessionCommands: `_delete_session` and `_my_session` are thin wrappers around the session service and are left out.
- Thin command handlers that only forward to the services (the authorisation, queue and start commands, the message handler) are left out; the services they call are modelled.

## Findings

| source | as written | input that shows it | evidently intended | confidence | as-written member | corrected member |
|---|---|---|---|---|---|---|
| main/core/task_queue.py:218 | `put_nowait((-priority, task_info))` with `TaskInfo` a dataclass without ordering, so two entries with equal keys compare their task records and raise `TypeError` | `create_batch_task` with a count of 2 on an empty queue: both tasks have priority 1, and the second push compares `(-1, t0)` with `(-1, t1)` | tasks of equal priority are queued side by side, ordered by anything but the record | high (not executed) | TaskQueue.BatchSecondPushRaises | TaskQueue.ImprovedTaskQueue.AddTask |
