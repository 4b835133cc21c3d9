# AstrBot plugins: anti-revoke, group check-in, song requests, drawing

A Dafny model of four chat-bot plugins for the AstrBot framework, with proofs
of the properties their code relies on.

- **anti_revoke** (`anti_revoke.dfy`, `revoke_cache.dfy`). Every QQ message
  is cached under the key `message_id + "_" + sender_id`. Entries expire
  after an hour, and the cache holds at most 1000 of them. When a recall
  notice arrives, the plugin extracts the ids from the notice (the model
  uses the corrected extraction of the Findings table). It then
  consumes the cached message, first under the exact key and otherwise under
  the first alternative key that is present. It forwards the message unless
  the optional importance filter says it is unimportant. The cache is a Python
  dictionary, modelled as an insertion-ordered sequence of slots with
  distinct keys (`RevokeCache`). Order matters because `min` over the keys
  evicts the first of several equally old entries. The plugin class
  `AntiRevoke.AntiRevokePlugin` updates the cache in place with the same
  loops as the source. Each method is proved equal to a specification
  function (`Record`, `Take`, `Probe`, `Resolve`), and the properties are
  proved about those functions.
- **qq_group_sign** (`group_sign.dfy`). The daily schedule at a configured
  clock time, the parsing of that time, the whitelist of groups, and the
  tally of one batch of check-ins. Instants are integers: microseconds of
  local time.
- **multi_music** (`multi_music.dfy`). The current platform ("qq" or "163"),
  the conversion of a decoded search payload into song records, the
  per-user table of results, the choice of a song by its number, and the
  play links.
- **image_generation** (`image_generation.dfy`). The extraction of an image
  description from a drawing request, the prompt fallback, the settings
  override from the environment, and the check on the returned image URL.

`text.dfy` models the Python string operations the plugins use. They are
`strip`, `split`, `join`, `replace(p, "")`, `lower`, `endswith`, `isdigit`,
`int()` and `str()` on integers. `wrappers.dfy` holds `Option`, and
`seq_facts.dfy` holds slicing identities used by the proofs.

Clocks (`time.time()`, `datetime.now()`), the network, the language model
and environment variables are parameters of the operations that read them.

## Model

| member | source | states |
|---|---|---|
| Text.TrimStartFacts | astrbot_plugin_anti_revoke/main.py:40 | `lstrip` removes exactly the leading whitespace: the result is a suffix of the input, starts with a non-space, and every removed character is whitespace |
| Text.TrimEndFacts | astrbot_plugin_anti_revoke/main.py:40 | `rstrip` removes exactly the trailing whitespace: the result is a prefix, ends with a non-space, and every removed character is whitespace |
| Text.Strip | astrbot_plugin_anti_revoke/main.py:40 | the stripped text has no whitespace at either end, is no longer than the input, and holds only characters of the input |
| Text.StripNoEdge | astrbot_plugin_anti_revoke/main.py:40 | text with no edge whitespace is left unchanged by `strip` |
| Text.StripIdempotent | astrbot_plugin_anti_revoke/main.py:40 | stripping twice is stripping once |
| Text.Split | astrbot_plugin_anti_revoke/main.py:40 | `split(sep)` always yields at least one piece, and no piece contains the separator |
| Text.JoinSplit | astrbot_plugin_anti_revoke/main.py:40 | joining the pieces of a split with the same separator gives the original text back |
| Text.SplitJoin | astrbot_plugin_anti_revoke/main.py:40 | splitting a join of separator-free pieces gives the pieces back |
| Text.DeleteAll | astrbot_plugin_image_generation/main.py:103 | `replace(kw, "")` only deletes: the result is no longer and holds only characters of the input |
| Text.DeleteAllChar | astrbot_plugin_image_generation/main.py:103 | deleting a one-character keyword leaves no occurrence of that character |
| Text.DeleteAllAbsent | astrbot_plugin_image_generation/main.py:103 | a keyword whose first character is absent from the text deletes nothing |
| Text.LowerFacts | astrbot_plugin_image_generation/main.py:163 | after `lower()` no ASCII capital remains, lowering twice is lowering once, and text with no capitals is unchanged |
| Text.ParseInt | astrbot_plugin_qq_group_sign/main.py:44 | `int(s)` succeeds only on text that holds a digit |
| Text.ParseDigits | astrbot_plugin_multi_music/main.py:198-200 | for text that passes `isdigit()`, `int()` succeeds with the decimal value of the digits |
| Text.NatToString | astrbot_plugin_anti_revoke/main.py:274-275 | `str(n)` of a natural number is a non-empty run of digits whose decimal value is n |
| Text.IntToString | astrbot_plugin_anti_revoke/main.py:274-275 | `str(i)` of an integer is never empty, so a non-zero integer id is a truthy string |
| Text.IntToStringRoundTrip | astrbot_plugin_anti_revoke/main.py:274-275 | `int(str(i)) == i` for every integer |
| RevokeCache.MessageKeyCollides | astrbot_plugin_anti_revoke/main.py:42-44 | the key does not separate its parts: ("1_2", "3") and ("1", "2_3") share a key |
| RevokeCache.MessageKeyInjective | astrbot_plugin_anti_revoke/main.py:42-44 | when message ids hold no underscore, equal keys mean equal message ids and equal sender ids |
| RevokeCache.IndexOf | astrbot_plugin_anti_revoke/main.py:87 | dictionary lookup: the key's position, or -1 exactly when no slot carries the key |
| RevokeCache.RemoveAt | astrbot_plugin_anti_revoke/main.py:58 | `del` of a present key removes exactly one entry |
| RevokeCache.Put | astrbot_plugin_anti_revoke/main.py:67-76 | item assignment adds at most one entry |
| RevokeCache.MessageKey | astrbot_plugin_anti_revoke/main.py:42-44 | the key `message_id + "_" + sender_id`; MessageKeyInjective and MessageKeyCollides state when it identifies the pair |
| RevokeCache.Filter | astrbot_plugin_anti_revoke/main.py:53-56 | the kept slots are exactly the slots that satisfy the condition, and there are no more of them than slots |
| RevokeCache.FilterConcat | astrbot_plugin_anti_revoke/main.py:53-56 | filtering a concatenation is concatenating the filtered parts, so the kept slots stay in their original order |
| RevokeCache.Fresh | astrbot_plugin_anti_revoke/main.py:53-58 | the unexpired entries in dictionary order; SweepIsFresh shows the deletion loop leaves exactly these, and GetFresh what `get` sees afterwards |
| RevokeCache.ExpiredKeys | astrbot_plugin_anti_revoke/main.py:53-56 | every entry strictly older than the limit has its key listed, and every listed key belongs to such an entry |
| RevokeCache.OldestIndex | astrbot_plugin_anti_revoke/main.py:62-63 | `min(keys, key=timestamp)`: an entry of least timestamp, and no earlier entry has that timestamp |
| RevokeCache.GetMember | astrbot_plugin_anti_revoke/main.py:87 | in a well-formed dictionary, `get` of a slot's key returns that slot's record |
| RevokeCache.GetNone | astrbot_plugin_anti_revoke/main.py:87 | `get` returns nothing exactly when no slot has the key; otherwise the returned record is stored under it |
| RevokeCache.RemoveAtDistinct | astrbot_plugin_anti_revoke/main.py:58 | `del` keeps keys distinct and removes exactly the slot of the deleted key |
| RevokeCache.PutFacts | astrbot_plugin_anti_revoke/main.py:67-76 | after assignment the key maps to the new record, every other key is unchanged, and keys stay distinct |
| RevokeCache.RemoveAtFacts | astrbot_plugin_anti_revoke/main.py:58 | after `del` the key is absent and every other key is unchanged |
| RevokeCache.ExpiredKeysDistinct | astrbot_plugin_anti_revoke/main.py:53-58 | the listed expired keys are pairwise distinct, so every `del` of the sweep finds its key |
| RevokeCache.SweepIsFresh | astrbot_plugin_anti_revoke/main.py:53-58 | deleting the listed keys leaves exactly the unexpired entries, in their original order |
| RevokeCache.GetFresh | astrbot_plugin_anti_revoke/main.py:53-58 | after the sweep, `get` returns a record exactly when it was present and not expired |
| RevokeCache.Record | astrbot_plugin_anti_revoke/main.py:46-81 | the cache after `_add_message_to_cache`: sweep, evict the first oldest entry when still full, store the stamped record; its properties are RecordKeepsBound, RecordStores, RecordOthers and EvictsOldest |
| RevokeCache.RecordKeepsBound | astrbot_plugin_anti_revoke/main.py:46-76 | an insertion keeps keys distinct and the cache within its capacity |
| RevokeCache.RecordStores | astrbot_plugin_anti_revoke/main.py:67-76 | with a capacity of at least one, the new record, stamped with the current time, is stored under its key |
| RevokeCache.RecordOthers | astrbot_plugin_anti_revoke/main.py:46-76 | every other key keeps its record unless that record expired or it is the one evicted key |
| RevokeCache.EvictsOldest | astrbot_plugin_anti_revoke/main.py:61-64 | an eviction happens only when the unexpired entries fill the cache, and it removes an unexpired entry with the least timestamp |
| RevokeCache.Take | astrbot_plugin_anti_revoke/main.py:83-99 | the result and the cache after `_get_message_from_cache`; TakeFacts characterises both |
| RevokeCache.TakeFacts | astrbot_plugin_anti_revoke/main.py:83-99 | a lookup returns the record only when present and unexpired, always removes the key, touches no other key, and changes nothing for an absent key |
| RevokeCache.TakeTwice | astrbot_plugin_anti_revoke/main.py:92-96 | consume on read: a second lookup of the same key finds nothing |
| RevokeCache.RecordThenTake | astrbot_plugin_anti_revoke/main.py:46-99 | a lookup after an insertion returns the inserted record exactly when no more than the expiry time has passed |
| RevokeCache.AlternativeKeys | astrbot_plugin_anti_revoke/main.py:291-296 | the four keys tried after a miss, in order: the exact key, the bare message id, `msg_` and `id_` before it; FirstAlternativeNeverMatches shows the first is dead |
| RevokeCache.Probe | astrbot_plugin_anti_revoke/main.py:298-302 | the fallback loop's result and cache; ProbeFacts characterises both |
| RevokeCache.Resolve | astrbot_plugin_anti_revoke/main.py:287-306 | the whole recall lookup, exact key then fallback; ResolveFacts states its results and removals |
| RevokeCache.FirstPresent | astrbot_plugin_anti_revoke/main.py:298-302 | the index of the first listed key present in the cache: all earlier keys are absent |
| RevokeCache.ProbeFacts | astrbot_plugin_anti_revoke/main.py:291-302 | the fallback takes the record under the first present alternative key and deletes that key only, without any expiry check; with no key present it changes nothing |
| RevokeCache.FirstAlternativeNeverMatches | astrbot_plugin_anti_revoke/main.py:288-292 | the first alternative key is the exact key, which the failed exact lookup has already removed, so it never matches |
| RevokeCache.ResolveFacts | astrbot_plugin_anti_revoke/main.py:287-306 | the recall lookup returns the unexpired record under the exact key when there is one; anything it returns was stored under one of the four keys; it removes at most two entries |
| RevokeCache.ScenarioResolveFresh | astrbot_plugin_anti_revoke/main.py:46-99 | a message recorded at 1000 and recalled at 1001 is returned, and a second recall finds nothing |
| RevokeCache.ScenarioResolveExpired | astrbot_plugin_anti_revoke/main.py:91-93 | a message recalled 3601 seconds after recording is not returned |
| RevokeCache.RecordAppends | astrbot_plugin_anti_revoke/main.py:66-76 | a new key recorded with room to spare and nothing expired is appended at the end |
| RevokeCache.RecordEvictsFirst | astrbot_plugin_anti_revoke/main.py:61-76 | in a full cache whose first entry is the oldest, that entry is dropped and the new one appended |
| RevokeCache.EvictsFirstRecorded | astrbot_plugin_anti_revoke/main.py:61-76 | with capacity 2, recording three keys at times 0, 1 and 2 leaves the second and the third |
| AntiRevoke.ParseAdminList | astrbot_plugin_anti_revoke/main.py:36-40 | each parsed admin id is non-empty, has no edge whitespace and holds no comma |
| AntiRevoke.KeepStripped | astrbot_plugin_anti_revoke/main.py:40 | the comprehension keeps at most one stripped, non-empty piece per input piece |
| AntiRevoke.KeepStrippedClean | astrbot_plugin_anti_revoke/main.py:40 | pieces that are already clean are all kept, unchanged and in order |
| AntiRevoke.ParseAdminListJoin | astrbot_plugin_anti_revoke/main.py:36-40 | parsing the comma-joined list of clean ids gives the ids back |
| AntiRevoke.RecordedEventIsRecalled | astrbot_plugin_anti_revoke/main.py:67-99 | an event recorded by `on_message` and resolved by its ids within the expiry time comes back with all seven fields of the event, stamped with its recording time, and is consumed |
| AntiRevoke.ShouldCache | astrbot_plugin_anti_revoke/main.py:210-219 | a message is cached only from "aiocqhttp" or "qqofficial", from a group only when group caching is on, and from a private chat only when private caching is on |
| AntiRevoke.ExtractIdsAsWritten | astrbot_plugin_anti_revoke/main.py:274-285 | the extraction as the program writes it, `str(a or b or c)` with the `data` fallback only for an empty rendering; NullIdBecomesNone and ExtractIdsAgree compare it with the corrected one |
| AntiRevoke.ExtractIdsAgree | astrbot_plugin_anti_revoke/main.py:274-285 | the as-written and corrected extractions agree on every notice whose `id` and `qq` fields are strings or truthy, so they differ only on a null or zero third candidate |
| AntiRevoke.NullIdBecomesNone | astrbot_plugin_anti_revoke/main.py:274-281 | as written, a null `id` with a `data.message_id` present yields the message id "None"; the intended extraction yields "42" |
| AntiRevoke.FirstTruthy | astrbot_plugin_anti_revoke/main.py:274-275 | the chosen id is non-empty exactly when some candidate is truthy |
| AntiRevoke.FirstTruthyThree | astrbot_plugin_anti_revoke/main.py:274-275 | among three candidates, the first truthy one is chosen, in order |
| AntiRevoke.ExtractIds | astrbot_plugin_anti_revoke/main.py:274-285 | a successful extraction gives a non-empty message id and a non-empty user id |
| AntiRevoke.ExtractIdsPrecedence | astrbot_plugin_anti_revoke/main.py:274-285 | each id comes from the first truthy of its three top-level fields, and only when none is truthy from `data`, which must then be an object |
| AntiRevoke.GroupLabels | astrbot_plugin_anti_revoke/main.py:140-141 | both labels are non-empty, and both are "私聊" exactly when the message had no group |
| AntiRevoke.IsImportant | astrbot_plugin_anti_revoke/main.py:104-134 | a notification is suppressed exactly when the filter is on, a non-empty reply came back, and the stripped, lower-cased reply is not "important" |
| AntiRevoke.SweepStep | astrbot_plugin_anti_revoke/main.py:57-58 | each `del` of the sweep finds its key, and after it the batch of deletions has grown by that key |
| AntiRevoke.AntiRevokePlugin.constructor | astrbot_plugin_anti_revoke/main.py:17-27 | an empty cache with capacity 1000 and expiry 3600, the parsed admin lists and the enable flags |
| AntiRevoke.AntiRevokePlugin.AddMessageToCache | astrbot_plugin_anti_revoke/main.py:46-81 | the sweep, eviction and insertion leave the cache equal to `Record` of the old cache, well formed and within capacity |
| AntiRevoke.AntiRevokePlugin.GetMessageFromCache | astrbot_plugin_anti_revoke/main.py:83-99 | the result and the new cache are those of `Take` on the old cache |
| AntiRevoke.AntiRevokePlugin.ProbeKeys | astrbot_plugin_anti_revoke/main.py:291-302 | the probing loop's result and new cache are those of `Probe` on the old cache |
| AntiRevoke.AntiRevokePlugin.HandleRecallEvent | astrbot_plugin_anti_revoke/main.py:270-317 | with the corrected extraction, missing ids leave the cache untouched; otherwise the cache becomes `Resolve`'s remainder, and the outcome is not found, suppressed, or a notification with the group labels, as the importance decision says |
| AntiRevoke.AntiRevokePlugin.OnMessage | astrbot_plugin_anti_revoke/main.py:205-225 | the message is recorded exactly when it is from a QQ platform and its kind of chat is enabled; otherwise the cache is unchanged |
| GroupSign.ClockOffset | astrbot_plugin_qq_group_sign/main.py:64-69 | the sign time lies within one day and on a whole second |
| GroupSign.SameDayAt | astrbot_plugin_qq_group_sign/main.py:64-69 | `replace(hour, minute, second, microsecond=0)` stays on the same day, at the sign time of day |
| GroupSign.NextRunTime | astrbot_plugin_qq_group_sign/main.py:61-72 | the next run is strictly after now, at most one day ahead, at the sign time of day |
| GroupSign.NextRunTimeIsEarliest | astrbot_plugin_qq_group_sign/main.py:61-72 | no instant after now at the sign time of day comes before the next run |
| GroupSign.DailyWait | astrbot_plugin_qq_group_sign/main.py:295-315 | the daily task's wait is positive and at most one day |
| GroupSign.DailyWaitIsNextRun | astrbot_plugin_qq_group_sign/main.py:303-315 | the wait is the distance to the next run, so the "too long" reset branch never fires |
| GroupSign.ParseClock | astrbot_plugin_qq_group_sign/main.py:571-575 | parsing succeeds only with a valid clock time |
| GroupSign.ConfiguredSignTime | astrbot_plugin_qq_group_sign/main.py:42-48 | the configured time when it parses, otherwise 08:00:00; always a valid clock time |
| GroupSign.FormatClock | astrbot_plugin_qq_group_sign/main.py:520 | `strftime('%H:%M:%S')` gives eight characters |
| GroupSign.ParseFormatClock | astrbot_plugin_qq_group_sign/main.py:520 | the displayed sign time parses back to the same time |
| GroupSign.WithGroup | astrbot_plugin_qq_group_sign/main.py:462-464 | after adding, the whitelist holds the old ids and the new one, and nothing else |
| GroupSign.RemoveFirst | astrbot_plugin_qq_group_sign/main.py:480-481 | the guarded `remove` shortens the list by one when the id is present, changes nothing otherwise, and adds nothing |
| GroupSign.WithGroupDistinct | astrbot_plugin_qq_group_sign/main.py:463-464 | adding keeps the whitelist free of duplicates |
| GroupSign.WithGroupIdempotent | astrbot_plugin_qq_group_sign/main.py:463-464 | adding the same id twice is adding it once |
| GroupSign.RemoveFirstDistinct | astrbot_plugin_qq_group_sign/main.py:479-481 | on a duplicate-free whitelist, removal takes the id out entirely and keeps every other id |
| GroupSign.RemoveAfterAdd | astrbot_plugin_qq_group_sign/main.py:459-490 | removing a freshly added id restores the whitelist exactly |
| GroupSign.StatusTextMarksSuccess | astrbot_plugin_qq_group_sign/main.py:241-254 | the status reads "✅ 成功" exactly for a returned result whose `success` is true |
| GroupSign.StatusText | astrbot_plugin_qq_group_sign/main.py:239-254 | the status of one group: the exception text, "✅ 成功", the returned message or "未知错误", or "返回结果异常"; StatusTextMarksSuccess ties it to success |
| GroupSign.StatusLineMarksSuccess | astrbot_plugin_qq_group_sign/main.py:239-256 | a group's report line is its success line exactly when its result succeeded |
| GroupSign.StatusLinesReportSuccesses | astrbot_plugin_qq_group_sign/main.py:234-256 | each report line marks its group a success exactly when its result succeeded, so the report shows as many success lines as there are successes |
| GroupSign.Successes | astrbot_plugin_qq_group_sign/main.py:234-254 | the number of successes never exceeds the number of results |
| GroupSign.SuccessesAllOrNothing | astrbot_plugin_qq_group_sign/main.py:239-254 | all results succeed exactly when every one is counted a success, and none succeeds exactly when the count is zero |
| GroupSign.SignPlugin.constructor | astrbot_plugin_qq_group_sign/main.py:26-48 | empty whitelist, zero statistics and no last sign time; the sign time follows the configuration with its fallback |
| GroupSign.SignPlugin.GetNextRunTime | astrbot_plugin_qq_group_sign/main.py:61-72 | the result is `NextRunTime` of the local time in the configured zone: strictly after now, within a day, at the sign time of day, and by NextRunTimeIsEarliest the earliest such instant |
| GroupSign.SignPlugin.SetSignTime | astrbot_plugin_qq_group_sign/main.py:568-584 | a text is accepted exactly when it parses to a valid clock time; then the sign time and its configuration entry change; otherwise nothing changes |
| GroupSign.SignPlugin.AddWhitelist | astrbot_plugin_qq_group_sign/main.py:459-473 | the stripped id is added exactly when it was absent; the whitelist stays duplicate-free and nothing else changes |
| GroupSign.SignPlugin.RemoveWhitelist | astrbot_plugin_qq_group_sign/main.py:476-490 | the stripped id is removed exactly when it was present and is absent afterwards; nothing else changes |
| GroupSign.SignPlugin.SignTargetGroups | astrbot_plugin_qq_group_sign/main.py:225-262 | an empty list changes nothing; otherwise one line per group, the successes counted, successes and failures summing to the group count, and the statistics grown by exactly the batch |
| GroupSign.SignPlugin.TallyResults | astrbot_plugin_qq_group_sign/main.py:234-256 | the loop counts exactly the successful results, the rest as failures, and builds the report lines in order |
| GroupSign.SignPlugin.ManualSign | astrbot_plugin_qq_group_sign/main.py:365-395 | outside a group nothing changes; otherwise one check-in is counted as a success (with the time) or as a failure |
| MultiMusic.QqRecord | astrbot_plugin_multi_music/main.py:61-66 | every QQ record carries a `mid` |
| MultiMusic.NeteaseRecord | astrbot_plugin_multi_music/main.py:100-104 | NetEase records carry no `mid` |
| MultiMusic.ConvertAll | astrbot_plugin_multi_music/main.py:53-66 | the conversion gives one record per entry, and succeeds exactly when every entry converts |
| MultiMusic.ConvertAllPointwise | astrbot_plugin_multi_music/main.py:53-66 | each record is the conversion of the entry at the same position |
| MultiMusic.ConvertFails | astrbot_plugin_multi_music/main.py:68-70 | one entry that raises makes the whole search return nothing |
| MultiMusic.QqResultsHaveMid | astrbot_plugin_multi_music/main.py:61-66 | every QQ result has a `mid`, so the QQ link is built from it and never from the `id` |
| MultiMusic.QqPrefersFirstVersion | astrbot_plugin_multi_music/main.py:54-66 | a QQ entry with a truthy `grp` list is recorded from its first version, otherwise from itself, with `mid` defaulting to "" |
| MultiMusic.NeteaseSingleObject | astrbot_plugin_multi_music/main.py:93-96 | a single NetEase song object gives the same results as a one-element list holding it |
| MultiMusic.QqResults | astrbot_plugin_multi_music/main.py:40-70 | the QQ song list of a payload; ConvertAllPointwise, QqResultsHaveMid, QqPrefersFirstVersion and CodeGuard state its content |
| MultiMusic.NeteaseResults | astrbot_plugin_multi_music/main.py:82-108 | the NetEase song list of a payload; ConvertAllPointwise, NeteaseSingleObject and CodeGuard state its content |
| MultiMusic.CodeGuard | astrbot_plugin_multi_music/main.py:47-49 | a payload whose `code` is not 200 gives no results on either platform |
| MultiMusic.QqMusicUrl | astrbot_plugin_multi_music/main.py:72-80 | there is no link exactly when the `mid` is falsy |
| MultiMusic.NeteaseMusicUrl | astrbot_plugin_multi_music/main.py:110-117 | there is no link exactly when the `id` is falsy |
| MultiMusic.PlayUrlsCarryId | astrbot_plugin_multi_music/main.py:79 | the id a play link was built from can be read back from between its fixed prefix and suffix |
| MultiMusic.PlayUrl | astrbot_plugin_multi_music/main.py:212-217 | the link of the selected song on the current platform; SearchResultLinks states when it exists and what it carries |
| MultiMusic.SearchResultLinks | astrbot_plugin_multi_music/main.py:145-150 | for a song listed by a search on "qq", the song has a `mid` and the link exists exactly when the `mid` is truthy and carries it; on "163" the song has no `mid` and the link exists exactly when the `id` is truthy and carries it; any other platform gives no link |
| MultiMusic.PlatformName | astrbot_plugin_multi_music/main.py:32-38 | the display name of a platform code; PlatformNames shows each name belongs to one case |
| MultiMusic.PlatformNames | astrbot_plugin_multi_music/main.py:32-38 | each display name belongs to exactly one platform code, and every other code reads "未知平台" |
| MultiMusic.InitialPlatform | astrbot_plugin_multi_music/main.py:16-22 | the start platform is "163" exactly for `default_api == "netease"`, else "qq" |
| MultiMusic.MusicPlugin.constructor | astrbot_plugin_multi_music/main.py:8-22 | the platform follows `default_api`, and no user has stored results |
| MultiMusic.MusicPlugin.SetPlatform | astrbot_plugin_multi_music/main.py:24-30 | exactly "qq" and "163" are accepted and become current; otherwise nothing changes |
| MultiMusic.MusicPlugin.SetMusicPlatform | astrbot_plugin_multi_music/main.py:172-190 | an empty argument shows the current platform, a supported one switches to it, and any other is reported unsupported without change |
| MultiMusic.MusicPlugin.SearchQqMusic | astrbot_plugin_multi_music/main.py:40-70 | the conversion loop returns exactly the QQ results of the payload, and nothing on any error |
| MultiMusic.MusicPlugin.Search163Music | astrbot_plugin_multi_music/main.py:82-108 | the conversion loop returns exactly the NetEase results of the payload, and nothing on any error |
| MultiMusic.MusicPlugin.SearchOn | astrbot_plugin_multi_music/main.py:145-150 | the songs are those `SongsFor` lists: NetEase results on "163", QQ results on every other platform; by SearchResultLinks each listed QQ song has a `mid` and each NetEase song none, and by CodeGuard a code other than 200 lists nothing |
| MultiMusic.MusicPlugin.Dian | astrbot_plugin_multi_music/main.py:136-169 | an empty name, a failed request, or no songs leave the stored results unchanged; otherwise the sender's results become the songs found |
| MultiMusic.MusicPlugin.HandleMessage | astrbot_plugin_multi_music/main.py:192-245 | only a number in 1..len from a user with stored results selects that song with its play link and consumes the results; anything else changes nothing |
| MultiMusic.MusicPlugin.FetchPlayUrl | astrbot_plugin_multi_music/main.py:212-217 | the link is `PlayUrl` of the song: by SearchResultLinks, for a song listed on the current platform it exists exactly when the `mid` (QQ) or `id` (NetEase) is truthy, and that value can be read back from it; any other platform gives none |
| ImageGeneration.StripKeywords | astrbot_plugin_image_generation/main.py:102-103 | the keyword loop only deletes characters, and after any step the text has no edge whitespace |
| ImageGeneration.DropPunctuation | astrbot_plugin_image_generation/main.py:106 | the result holds only input characters and none of the eight punctuation marks |
| ImageGeneration.DescriptionOf | astrbot_plugin_image_generation/main.py:96-108 | the description has no edge whitespace and holds only message characters that are not punctuation |
| ImageGeneration.StripKeywordsAppend | astrbot_plugin_image_generation/main.py:102-103 | running the loop over two keyword lists in turn is running it over their concatenation |
| ImageGeneration.DeleteKeywords | astrbot_plugin_image_generation/main.py:99-103 | the loop computes `StripKeywords` of the message |
| ImageGeneration.ExtractDrawingDescription | astrbot_plugin_image_generation/main.py:96-108 | the method computes `DescriptionOf` of the message |
| ImageGeneration.StripKeywordsKeepsAbsent | astrbot_plugin_image_generation/main.py:102-103 | a character absent from the message stays absent |
| ImageGeneration.DeletesDrawCharacters | astrbot_plugin_image_generation/main.py:100-103 | a keyword list that begins with "画" and "绘" leaves neither character |
| ImageGeneration.NoDrawCharacters | astrbot_plugin_image_generation/main.py:96-108 | the description never contains "画" or "绘" |
| ImageGeneration.AbsentKeywordsNoOp | astrbot_plugin_image_generation/main.py:102-103 | keywords that start with a character the text lacks change nothing |
| ImageGeneration.LaterKeywordsNoOp | astrbot_plugin_image_generation/main.py:100-103 | after "画" is deleted, later keywords starting with "画" are no-ops |
| ImageGeneration.LaterDrawKeywordsAreNoOps | astrbot_plugin_image_generation/main.py:100-103 | "画个", "画一张" and "画一下" never change the description |
| ImageGeneration.DrawPrompt | astrbot_plugin_image_generation/main.py:50-66 | a prompt is produced exactly for a configured key, a message not from the bot itself, and a drawing request; it is the description, or "一幅美丽的艺术作品" when that is empty |
| ImageGeneration.EffectiveSetting | astrbot_plugin_image_generation/main.py:17-26 | a non-empty environment variable overrides the configured value, and an unset or empty one does not |
| ImageGeneration.ValidImageUrl | astrbot_plugin_image_generation/main.py:159-163 | a URL is valid when its lower-cased text ends with one of the five image extensions; the three lemmas below state its behaviour |
| ImageGeneration.ValidImageUrlIgnoresCase | astrbot_plugin_image_generation/main.py:159-163 | two URLs equal up to letter case are both accepted or both rejected |
| ImageGeneration.ValidImageUrlAccepts | astrbot_plugin_image_generation/main.py:159-163 | every listed extension is accepted after any stem, in lower or upper case |
| ImageGeneration.ValidImageUrlRejectsSvg | astrbot_plugin_image_generation/main.py:159-163 | an ".svg" URL is rejected |

## Left out

- Network and HTTP: the vkeys search requests and the SiliconFlow image API with its retry loop. Also out are the platform calls of `_perform_group_sign`, `_notify_admin` and `_get_all_groups`, and `send_message`. Search payloads arrive already decoded, and a check-in result is an input.
- The retry loop's use of `asyncio` without importing it (image_generation main.py:145-155). The loop is outside the model.
- The language-model call of `_is_important_message` (anti_revoke main.py:104-134). Its reply is an `Option<string>` input of `IsImportant`; None stands for no provider, a failed call or an empty reply.
- `_is_drawing_request` (image_generation main.py:89-94). Its regular expressions are not modelled; `DrawPrompt` takes the match as a boolean.
- Asynchronous execution: tasks, `asyncio.gather`, the stop event and the sleep. Results of `gather` are an input list in group order.
- Plugin start, stop and `terminate`, including the cache clearing at anti_revoke main.py:349-356. The `antirevoke` command, the status and menu texts, `sign_all_groups`, `toggle_mode`, `view_whitelist` and `search_song` are also out.
- The event-type filters at anti_revoke main.py:227-268. Only the recall handler they call is modelled.
- JSON persistence (`_load_config`, `_save_config`, `save_config`) and logging.
- Message texts and templates: the notification format, the admin loops, the song list and card text, `get_album_art`, and the batch summary line. Outcomes carry the data these texts are built from.
- The message chain and `strftime` of the original message time. The display time is a string field.
- The generic `except` handlers that only log. One exception is modelled: in `_add_message_to_cache`, `min` of no keys is modelled as the skipped insertion. group_sign's handler at main.py:397-400 is also out; the check-in outcome is an input.
- Floating-point clocks: `time.time()` and `datetime` instants are integers. The time zone is a fixed whole-hour offset.
- Non-string song fields in multi_music: lists and objects render as fixed placeholders rather than as Python's `repr`, and floats are not modelled.
- Recall notice fields other than null, integers and strings: a boolean, float, list or object field of a recall notice (rendered by `str()`, e.g. `True`) is not modelled by `AntiRevoke.Scalar`.
- Text.ParseInt: models ASCII digits with an optional sign and ASCII surrounding whitespace. It does not model underscores between digits or non-ASCII digits, which Python's `int()` accepts.
- Text.Strip: models ASCII whitespace only. Python also strips Unicode spaces such as U+3000.
- Text.Lower: models ASCII letters only. Python also lowers other scripts.
- AntiRevoke.AntiRevokePlugin.HandleRecallEvent: uses the corrected id extraction `ExtractIds` of the Findings table, not `ExtractIdsAsWritten`. On a notice whose first two message-id (or user-id) fields are falsy and whose third is null or 0, the program looks up "None" or "0" as the id, while the model falls back to `data`. On every other notice the two agree (`ExtractIdsAgree`).
- MultiMusic.MusicPlugin.HandleMessage: the selection outcome carries the song and its optional link, not the text of the card or of the failure message.

## Findings

| source | as written | input that shows it | evidently intended | confidence | as-written member | corrected member |
|---|---|---|---|---|---|---|
| astrbot_plugin_anti_revoke/main.py:274-281 | `str(a or b or c)` renders a falsy last candidate as well. A null `id` gives "None", and `0` gives "0". Both are non-empty, so the `data` fallback on lines 278-281 is never reached. | notice `{"id": null, "user_id": "5", "data": {"message_id": "42"}}`: message id "None" instead of "42" | each id is the first truthy value among its three top-level fields and then `data` | high that the fallback is skipped; not executed | AntiRevoke.NullIdBecomesNone | AntiRevoke.ExtractIdsPrecedence |
