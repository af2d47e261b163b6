# ncmp music-partner bot, modelled in Dafny

The bot logs in to NetEase Cloud Music's "music partner" portal and does the daily rating work. It:

- checks the account;
- fetches the day's batch of works;
- rates every work not yet rated;
- works through the extra queue, up to seven extra ratings a day.

Each rating is a form POST with two fields:

- `params`: the JSON payload, AES-CBC encrypted twice, once under a fixed key and once under the signer's random 16-character seed, and base64-encoded each time;
- `encSecKey`: the reversed seed put through textbook RSA with a fixed modulus, as zero-filled hex.

The repository holds two generations of the bot. Each generation has:

- a signer;
- an extra-queue engine;
- a cookie validator;
- a settings loader.

The newer generation also has a login helper that pulls the two session cookies out of a login answer.

One module per source file:

| module | source |
|---|---|
| `Signer`, `SignerFacts` | signer.py |
| `Extra`, `ExtraFacts` | src/core/tasks/extra.py |
| `LegacyExtra` | extra_task.py |
| `DailyBot`, `DailyFacts` | music_partner_bot.py |
| `CoreBot`, `BotFacts` | src/core/bot.py |
| `Auth` | src/utils/auth.py |
| `CookieCheck` | src/validators/cookie.py |
| `LegacyCookieCheck` | cookie_validator.py |
| `Settings` | src/utils/config.py |
| `LegacySettings` | config.py |

Shared modules:

- `Common`: results and Python exceptions.
- `Text`: string helpers, `int()`.
- `Json`: JSON values with Python's dict operations and `json.dumps`.
- `Encoding`: UTF-8, base64, hex, OS2IP.
- `Cbc`: CBC mode, section 6.2 of NIST SP 800-38A.
- `Env`: the world.

The world is the one object the bots change in place (`Env.World`). It holds:

- the session's cookie jar;
- the portal's answers, in order;
- the trace of requests sent and sleeps taken;
- the random draws used so far.

Every operation that talks to the portal is a method on the world, with three exceptions. The two cookie validators (`CookieCheck.Validate`, `LegacyCookieCheck.LegacyValidate`) are functions of the cookie jar and the answers the portal gives. `Auth.Login` takes the login answer as a parameter. For each method, a function states what the method does: its outcome, its events and the answers it leaves. Each loop (a `while` loop, or a `for` loop where the source counts) carries an invariant that ties the state so far to that function. The `...Facts` modules prove what the source promises about those functions:

- the daily cap;
- error isolation in one engine and its absence in the other;
- pacing;
- report-before-rating;
- step order;
- the exception-to-`False` rule.

## Model

| member | source | states |
|---|---|---|
| Signer.AlphabetChar | signer.py:31 | every index into the seed alphabet gives an ASCII letter or digit |
| Signer.AlphabetComplete | signer.py:31 | every ASCII letter and digit is drawn by some index, so the alphabet is exactly letters plus digits |
| Signer.RandomString | signer.py:29-31 | the seed has exactly the requested length and only ASCII letters and digits |
| Signer.GenerateRandomString | signer.py:29-31 | the character-by-character loop builds exactly `RandomString` |
| Signer.NewSigner | signer.py:13-21 | a new signer keeps its task id and draws a 16-character seed, using 16 random draws |
| Signer.PadTo16 | signer.py:33-36 | the padded text is longer than the input by 1 to 16 characters, its length is a multiple of 16, it starts with the input, and every pad character's code is the pad length |
| Signer.UnpadPadTo16 | signer.py:33-36 | stripping the padding gives back the input |
| Signer.PadAscii | signer.py:33-37 | padding keeps ASCII text ASCII, so UTF-8 encoding adds no bytes |
| Signer.AddTo16Aligned | signer.py:33-37 | the encoded padded text of an ASCII input is a whole number of 16-byte blocks, 1 to 16 bytes longer than the input |
| Signer.AesEncrypt | signer.py:39-43 | one encryption layer yields ASCII (base64) text |
| Signer.Layer | signer.py:39-43 | a layer on ASCII text is ASCII, so it can be encrypted again |
| Signer.AesEncryptLayer | signer.py:39-43 | with a 16-character key, `_aes_encrypt` never fails and equals CBC with the fixed IV followed by base64 |
| Signer.Params | signer.py:45-50 | `params` is ASCII |
| Signer.GetParamsLayers | signer.py:45-50 | `_get_params` is the fixed-key layer over `json.dumps(data)`, then the seed layer |
| Signer.InnerLayer | signer.py:47-48 | the inner layer encrypts `json.dumps(data)` under the fixed key |
| Signer.LayerRoundTrip | signer.py:39-43 | with a block function that has an inverse, a layer can be decrypted back to its text |
| Signer.ParamsRoundTrip | signer.py:45-50 | peeling the seed layer and then the fixed-key layer gives back `json.dumps(data)` |
| Signer.RsaEp | signer.py:56 | the RSA result is below the modulus |
| Signer.ModulusBound | signer.py:23 | the fixed modulus is below 16^256 |
| Signer.EncSecKeySpec | signer.py:52-57 | `encSecKey` is exactly 256 lowercase hex digits, and their value is the reversed seed's bytes, read big-endian, raised to 0x10001 mod the modulus |
| Signer.NamePatternSpec | signer.py:27 | `.*[a-zA-Z].*` matches iff an ASCII letter occurs before the first line break |
| Signer.ConcatNames | signer.py:61 | `name + authorName` succeeds iff both are strings (TypeError otherwise) |
| Signer.ScoreAndTag | signer.py:59-62 | the score is "4" iff the pattern matches the two names, otherwise "3", and the tag is the score + "-A-1" |
| Signer.RatingData | signer.py:75-88 | the payload exists iff the work has an `id`; it holds the eight fields, with `extraResource` appended exactly for extra ratings |
| Signer.RatingFieldsLookup | signer.py:75-84 | each payload field has its value: taskId, workId, score, tags, customTags "%5B%5D", empty comment, syncYunCircle "true", csrf_token |
| Signer.RatingRequest | signer.py:72-97 | the request exists iff the jar holds `__csrf` and the work has names and an `id`; without `__csrf` it is the KeyError |
| Signer.RatingPayload | signer.py:75-97 | the request is a POST to the evaluate URL with `?csrf_token=`, signed with the signer's seed, carrying every payload field |
| Signer.WireFormSpec | signer.py:90-93 | the two form fields are `_get_params(data)` and the 256-digit `encSecKey`, which depends on the seed only |
| Signer.DefaultMsgNotThrottled | signer.py:103-104 | the default message "未知错误" is not a rate-limit message |
| Signer.Classify | signer.py:100-110 | accepted iff the body's code equals 200; a missing msg counts as "未知错误"; an undecodable answer is the decoder's error |
| Signer.Rewrap | signer.py:112-114 | every escaping error becomes "评分过程出错: …", unless the handler's own `work["name"]` raises first |
| Signer.RateFromThrottled | signer.py:104-108 | a rate-limit answer leads to the same request again after a backoff sleep |
| Signer.RateFromSettled | signer.py:100-114 | a non-throttled answer ends the attempt: success on 200, "评分失败: msg" or the decoder's error, wrapped |
| Signer.Sign | signer.py:64-114 | `sign` sends, sleeps and returns exactly as `SignRun` says |
| SignerFacts.SingleAttempt | signer.py:95-110 | without a rate-limit answer there is one sleep and one request |
| SignerFacts.AttemptCounts | signer.py:68-70 | one attempt has one pre-rating sleep, no other sleep, and one request |
| SignerFacts.BackoffCounts | signer.py:105-107 | a backoff adds exactly one backoff sleep and nothing else |
| SignerFacts.RateFromPauses | signer.py:64-114 | after k throttled answers: k+1 pre-rating sleeps, k backoffs, no between-items pause |
| SignerFacts.RateFromRequests | signer.py:95-108 | after k throttled answers the same request was sent k+1 times |
| SignerFacts.RateFromLeft | signer.py:95-108 | the retries consume exactly the throttled answers and the one that settles |
| SignerFacts.RateFromOutcome | signer.py:100-114 | the call succeeds iff the settling answer is accepted; each retry level wraps the error once more in "评分过程出错: " |
| SignerFacts.SignRunPauses | signer.py:68-70 | every `sign` call sleeps before rating at least once and never takes a between-items pause |
| SignerFacts.RateFromSends | signer.py:95-108 | a `sign` attempt chain that goes through had a request to send and has posted it |
| SignerFacts.SignRunSends | signer.py:64-108 | a `sign` call that goes through could build the rating request for its work and has posted it |
| SignerFacts.NamelessWork | signer.py:112-114 | a work without `name` fails with KeyError('name') after the first sleep, with no request |
| SignerFacts.MissingCsrf | signer.py:72 | without the `__csrf` cookie nothing is sent and the wrapped KeyError escapes |
| Encoding.Utf8OfAscii | signer.py:37 | ASCII text encodes to one byte per character, with the same codes |
| Encoding.Base64 | signer.py:43 | base64 output is ASCII |
| Encoding.Base64Length | signer.py:43 | base64 output has 4·⌈n/3⌉ characters |
| Encoding.Base64RoundTrip | signer.py:43 | base64 decoding inverts the encoding |
| Encoding.HexOfBytesValue | signer.py:55 | the hex of the bytes, read as a number, is their big-endian value |
| Encoding.ToHex | signer.py:57 | `format(n, 'x')` is non-empty lowercase hex |
| Encoding.HexValueOfToHex | signer.py:57 | `format(n, 'x')` has value n |
| Encoding.ToHexShort | signer.py:57 | a number below 16^k has at most k hex digits |
| Encoding.ZFill | signer.py:57 | `zfill` pads with leading zeros to the width and keeps the text as its suffix |
| Cbc.CbcEncrypt | signer.py:41-42 | CBC encryption keeps the length of block-aligned data |
| Cbc.CbcDecrypt | signer.py:41-42 | CBC decryption keeps the length of block-aligned data |
| Cbc.CbcRoundTrip | signer.py:41-42 | CBC decryption inverts CBC encryption when the block function has an inverse |
| Cbc.AesCbcEncrypt | signer.py:41-42 | AES-CBC accepts exactly 16-, 24- or 32-byte keys, a 16-byte IV and block-aligned data, and keeps the length |
| Text.Reverse | signer.py:54 | `[::-1]` puts character i at position n-1-i |
| Text.ParseInt | music_partner_bot.py:77 | `int()` of text succeeds iff it is digits with at most one leading sign |
| Text.ParseIntOfDecimal | music_partner_bot.py:77 | `int(str(i)) == i` |
| Json.Lookup | signer.py:61 | a dict lookup finds nothing iff no field has the key, and otherwise finds a field's value |
| Json.LookupLast | signer.py:61 | a key bound several times in a parsed object reads as its last binding: the lookup yields `v` iff some field binds the key to `v` and no later field has the key |
| Json.Dumps | signer.py:47 | `json.dumps` output is ASCII |
| Json.Index | signer.py:61 | `d[key]` is the bound value, KeyError for a missing key, TypeError on a non-dict |
| Json.GetOr | src/utils/auth.py:41 | `d.get(key, default)` works on dicts only and gives the value or the default |
| Json.In | signer.py:104 | `in` on a string is substring search; on a dict it is key membership |
| Json.Iterate | music_partner_bot.py:74 | iterating a list gives its items |
| Json.SetItem | signer.py:88 | `d[key] = v` binds the key, keeps every other key, and appends a new key at the end |
| Json.PyInt | music_partner_bot.py:77 | `int()` of a number is itself, of True 1 and of False 0, of a string its parse, and of null, a list or a dict a TypeError |
| Env.Decode | music_partner_bot.py:58 | `.json()` gives the body; a non-JSON body raises ValueError and a missing answer ConnectionError |
| Env.World.Send | signer.py:95-98 | a request takes the portal's next answer and is appended to the trace |
| Env.CookieMissing | signer.py:72 | a missing cookie is a KeyError |
| Env.World.Sleep | signer.py:70 | a sleep is appended to the trace |
| Extra.NewExtraTask | src/core/tasks/extra.py:10-18 | the engine's reporting signer has task id "" and a fresh seed |
| Extra.PartitionFails | src/core/tasks/extra.py:84-85 | splitting the list succeeds iff every item's `completed` can be read; otherwise the first bad item's error |
| Extra.PartitionKeeps | src/core/tasks/extra.py:84-85 | the two lists together are a permutation of the list |
| Extra.PartitionSides | src/core/tasks/extra.py:84-85 | the first list holds only completed items, the second only uncompleted ones |
| Extra.PartitionSnoc | src/core/tasks/extra.py:84-85 | appending an item appends it to its side, so both sides keep the list's order |
| Extra.ExtraList | src/core/tasks/extra.py:72-88 | RuntimeError "获取额外任务失败: …" when code ≠ 200; the list succeeds iff the answer is a JSON body with code 200, a `data` list and a readable `completed` on every item, and then gives the uncompleted items in order and the number of completed ones |
| Extra.GetExtraTasks | src/core/tasks/extra.py:72-92 | one GET to the list URL, with the result of `ExtraList` |
| Extra.ReportRequest | src/core/tasks/extra.py:109-131 | the report exists iff `__csrf`, `id` and `resourceId` are there; it is a POST to the report URL with `?csrf_token=` |
| Extra.ReportOutcome | src/core/tasks/extra.py:135-138 | the report succeeds iff code is 200 and the work has a name; otherwise "上报听歌记录失败: …" |
| Extra.ReportRun | src/core/tasks/extra.py:109-142 | a report sends at most one request, and exactly one when it succeeds |
| Extra.ReportListen | src/core/tasks/extra.py:109-142 | `_report_listen` does what `ReportRun` says |
| Extra.WorkName | src/core/tasks/extra.py:47 | `task['work']['name']` is readable only when both keys are there |
| Extra.Blame | src/core/tasks/extra.py:105-107 | the handler re-raises the error unchanged when the work has a name |
| Extra.SingleRun | src/core/tasks/extra.py:94-107 | an item draws either nothing or exactly one 16-character signer seed |
| Extra.RateItem | src/core/tasks/extra.py:101-103 | rating one work builds a fresh signer, which draws exactly one 16-character seed |
| Extra.RateWork | src/core/tasks/extra.py:101-106 | the rating step of an item does what `RateItem` says: its failure is re-raised unchanged when the work has a name, and a work without one raises the KeyError of the logging line instead |
| Extra.ProcessSingleTask | src/core/tasks/extra.py:94-107 | `_process_single_task` does what `SingleRun` says |
| Extra.RunStep | src/core/tasks/extra.py:46-61 | one item of the loop does what the step says |
| Extra.SweepTasks | src/core/tasks/extra.py:37-61 | the loop does what `SweepFrom` says, so the loop invariant ties the trace to the specification |
| Extra.ProcessExtraTasks | src/core/tasks/extra.py:20-70 | `process_extra_tasks` does what `ExtraRun` says |
| ExtraFacts.SweepBound | src/core/tasks/extra.py:37-44 | the success count never exceeds `7 - completed` |
| ExtraFacts.SweepIsolation | src/core/tasks/extra.py:46-61 | the loop aborts only on an item whose work name is unreadable, with that error; if every name is readable it never aborts |
| ExtraFacts.FailureNotCounted | src/core/tasks/extra.py:46-61 | a failed item leaves the count unchanged and takes no pause |
| ExtraFacts.SweepPauses | src/core/tasks/extra.py:53-57 | one pause after each success except the one that fills the quota; none after failures |
| ExtraFacts.ReportRunQuiet | src/core/tasks/extra.py:109-142 | the report never sleeps |
| ExtraFacts.ReportGatesRating | src/core/tasks/extra.py:94-107 | an item rates iff its report went through; after a failed report nothing is drawn or sent |
| ExtraFacts.SingleRunQuiet | src/core/tasks/extra.py:94-107 | an item never takes the between-items pause itself |
| ExtraFacts.ExtraCap | src/core/tasks/extra.py:26-44 | with 7 or more completed, only the list request is made; otherwise at most `7 - completed` successes; aborts only on an unreadable name |
| ExtraFacts.ExtraPacing | src/core/tasks/extra.py:53-57 | a whole run pauses once per success, minus one when it fills the quota |
| LegacyExtra.Quota | extra_task.py:55-56 | the cut list is a prefix of the uncompleted items, of length min(n, 7 - completed), empty at 7 or more |
| LegacyExtra.LegacyList | extra_task.py:39-58 | the older list fails exactly when the newer one does, with the same error |
| LegacyExtra.LegacyGetExtraTasks | extra_task.py:39-62 | one GET, with the result of `LegacyList` |
| LegacyExtra.LegacySweep | extra_task.py:28-33 | the loop does what `LegacyFrom` says |
| LegacyExtra.LegacyProcessExtraTasks | extra_task.py:19-37 | `process_extra_tasks` does what `LegacyRun` says; an empty list returns at once |
| LegacyExtra.LegacyListQuota | extra_task.py:50-58 | the cut list is the head of the waiting works and the completed count is the newer engine's |
| LegacyExtra.LegacyPauses | extra_task.py:28-33 | a run that goes through processes every item and pauses after each, the last included |
| LegacyExtra.LegacyAbort | extra_task.py:28-37 | no isolation: the error ending a run is an item's own error |
| LegacyExtra.LegacyPacing | extra_task.py:22-33 | a whole successful run pauses once per item of the cut list |
| LegacyExtra.SingleAsWritten | extra_task.py:64-78 | as written, every item fails and draws nothing |
| LegacyExtra.AsWrittenNeverRates | extra_task.py:64-78 | as written, a non-empty queue ends in the first item's error with no rating sleep |
| DailyBot.UserCheck | music_partner_bot.py:34-54 | the account passes iff it has a truthy profile with a nickname; every failure is RuntimeError("用户验证失败") |
| DailyBot.VerifyUser | music_partner_bot.py:34-54 | one GET to the account URL with the result of `UserCheck` |
| DailyBot.DailyStatus | music_partner_bot.py:56-67 | complete iff count equals completedCount, each defaulting to 0, and `data` defaults to {} |
| DailyBot.NoDataIsComplete | music_partner_bot.py:59-64 | an answer without `data` is a complete, empty batch |
| DailyBot.GetDailyTasks | music_partner_bot.py:56-67 | one GET to the batch URL with the result of `DailyStatus` |
| DailyBot.RatedLog | music_partner_bot.py:77 | logging a rated work needs its names and an `int()`-able score |
| DailyBot.Visit | music_partner_bot.py:74-79 | a work goes through only when it has `work` and `completed`; one marked completed is only logged, with no request and no sleep |
| DailyBot.DailyRun | music_partner_bot.py:69-79 | the batch signer draws a seed exactly when the batch has an `id` |
| DailyBot.VisitWork | music_partner_bot.py:75-79 | one work of the loop does what `Visit` says |
| DailyBot.VisitWorks | music_partner_bot.py:74-79 | the loop does what `DailyFrom` says |
| DailyBot.ProcessTasks | music_partner_bot.py:69-79 | `_process_tasks` does what `DailyRun` says |
| DailyBot.BotRunAsWritten | music_partner_bot.py:16-32 | as written, the run never returns True and draws nothing; it sends at most the account and batch requests |
| DailyBot.RunBot | music_partner_bot.py:16-32 | `run` does what `BotRun` says |
| DailyBot.RunDaily | music_partner_bot.py:21-23 | the run after the account check does what `BotDaily` says |
| DailyBot.RunBatch | music_partner_bot.py:22-27 | the batch and extra stage do what `BotBatch` says |
| DailyBot.RunExtra | music_partner_bot.py:26-27 | the extra stage does what `BotExtra` says |
| DailyFacts.UserFirst | music_partner_bot.py:16-21 | the account request comes first; a failed check ends the run with False after it; otherwise the batch fetch comes next |
| DailyFacts.CompleteSkipsRating | music_partner_bot.py:22-27 | a complete batch goes straight to the extra queue |
| DailyFacts.BatchNeedsId | music_partner_bot.py:26-27 | a batch without `id` makes the run return False |
| DailyFacts.NoDataFails | music_partner_bot.py:16-32 | a batch answer without `data` makes the whole run return False |
| DailyFacts.VisitRates | music_partner_bot.py:76-79 | a work that is not completed and goes through was rated (took a rating sleep) |
| DailyFacts.DailyRatesAll | music_partner_bot.py:74-79 | a loop that goes through has slept before a rating at least once per work not marked completed |
| DailyFacts.VisitSends | music_partner_bot.py:75-79 | a visit that goes through on a work not marked completed has posted the rating request built for that work |
| DailyFacts.DailySendsAll | music_partner_bot.py:74-79 | a loop that goes through has posted, for every work not marked completed, the request wanted for it, whenever each visit does so for its own work |
| DailyFacts.DailyAbort | music_partner_bot.py:74-79 | a `sign` error propagates: the loop's error is a work's own error |
| DailyFacts.BatchRated | music_partner_bot.py:69-79 | a batch that goes through has posted, for each of its works not marked completed, the rating request built with the batch's signer, and slept before a rating at least once per such work |
| DailyFacts.AritySlip | music_partner_bot.py:16-32 | on a valid account, complete batch and empty queue, the corrected run returns True after three requests and the as-written run returns False |
| DailyFacts.BotRunOk | music_partner_bot.py:16-32 | the corrected `run` returns True iff the account check passes, the batch answer is readable, and `BatchAndLegacyPass` holds on the answers those two requests leave: an incomplete batch is rated without an exception, the batch has an `id`, and the older extra engine, whose seed is drawn after the batch's, goes through; an exception from any stage gives False |
| CoreBot.CoreCheck | src/core/bot.py:37-50 | the account passes iff it has a truthy profile with a nickname; a falsy profile gives "验证用户信息失败: 获取用户信息失败"; all errors carry that prefix |
| CoreBot.CoreVerifyUser | src/core/bot.py:37-50 | one GET to the account URL with the result of `CoreCheck` |
| CoreBot.CoreRunBot | src/core/bot.py:17-35 | `run` does what `CoreRun` says |
| CoreBot.CoreRunDaily | src/core/bot.py:20-25 | the run after the account check does what `CoreDaily` says |
| CoreBot.CoreRunBatch | src/core/bot.py:23-29 | the batch and extra stage do what `CoreBatch` says |
| CoreBot.CoreRunExtra | src/core/bot.py:27-29 | the extra stage does what `CoreExtra` says |
| BotFacts.ChecksAgree | src/core/bot.py:37-50 | both bots accept the same accounts; they differ only in the error text |
| BotFacts.CoreUserFirst | src/core/bot.py:19-23 | the account is verified before any batch request, and a failure ends the run with False |
| BotFacts.CoreCompleteSkipsRating | src/core/bot.py:23-29 | a complete batch goes straight to the extra queue |
| BotFacts.CoreRunOk | src/core/bot.py:17-35 | `run` returns True iff the account check passes, the batch answer is readable, and `BatchAndExtraPass` holds on the answers those two requests leave: an incomplete batch is rated without an exception, the batch has an `id`, and the extra queue, whose engine draws its seed after the batch's, runs through |
| Auth.RunFrom | src/utils/auth.py:59 | the capture is the maximal run of non-';' characters from a position |
| Auth.SearchFinds | src/utils/auth.py:59 | `re.search('NAME=([^;]+)')` finds nothing iff no position matches; otherwise it captures the maximal run at the first match |
| Auth.SearchCaptures | src/utils/auth.py:59 | a capture is non-empty and contains no ';' |
| Auth.FromBody | src/utils/auth.py:55-66 | the body stage overwrites a value whenever its pattern matches |
| Auth.FromHeader | src/utils/auth.py:69-78 | the header stage fills only a missing value |
| Auth.BodyStage | src/utils/auth.py:55-66 | the body stage raises iff the cookie map lacks a value and the body has a `cookie` that is not a string |
| Auth.Credentials | src/utils/auth.py:49-78 | the three-stage extraction raises exactly when the body stage does |
| Auth.Login | src/utils/auth.py:12-100 | `login` returns (True, cookies) exactly when `LoginResult` has cookies, and (False, None) otherwise |
| Auth.StatusAndCodeGate | src/utils/auth.py:35-43 | HTTP status ≠ 200 or body code ≠ 200 gives (False, None) |
| Auth.LoginShape | src/utils/auth.py:80-96 | success returns exactly the keys Cookie_MUSIC_U and Cookie___csrf, both non-empty |
| Auth.CookieMapFirst | src/utils/auth.py:50-55 | when the cookie map has both values, they are used as they are |
| Auth.BodyOverwrites | src/utils/auth.py:55-66 | a body match replaces a MUSIC_U already found in the cookie map |
| Auth.HeaderFillsOnly | src/utils/auth.py:69-78 | the header never replaces a value found earlier, and fills a missing one when it matches |
| CookieCheck.CodeIs200 | src/validators/cookie.py:43-46 | the task check raises unless the answer is a dict, and passes iff its code equals 200 |
| CookieCheck.UserInfoOk | src/validators/cookie.py:38-41 | the user check raises unless the answer is a dict, and passes iff code is 200 and the profile is truthy |
| CookieCheck.Validate | src/validators/cookie.py:14-29 | valid iff the message is "Cookie有效"; at most two requests |
| CookieCheck.CookiesFirst | src/validators/cookie.py:17-18 | missing cookies give "Cookie未正确设置" with no request |
| CookieCheck.ChecksInOrder | src/validators/cookie.py:17-26 | valid iff all three checks pass, in order; each failing check gives its own message after the requests so far |
| CookieCheck.ExceptionsBecomeVerdicts | src/validators/cookie.py:28-29 | `validate` never raises: every failure is one of the three messages or "Cookie验证失败: …" |
| LegacyCookieCheck.LegacyValidate | cookie_validator.py:12-48 | valid iff the message is "Cookie有效" |
| LegacyCookieCheck.SameAsCurrent | cookie_validator.py:38-45 | the older validator gives the same verdict and requests as the newer one; the messages differ exactly on task code 301 |
| LegacyCookieCheck.Code301First | cookie_validator.py:38-39 | task code 301 gives "Cookie已失效，请更新Cookie" |
| Common.At | src/utils/config.py:74 | `d.get(key)` (and `cookies.get(name)` at src/utils/auth.py:51-52) is the bound value, or None when the key is absent |
| Settings.AsDict | src/utils/config.py:52 | the dict built from the parsed object answers every key as the dict lookup on the object's fields does |
| Settings.AsDictLast | src/utils/config.py:52 | a key the settings file binds more than once is read as its last binding, and a key it binds to `v` with no later binding is read as `v` |
| Settings.WithDefault | src/utils/config.py:40-41 | `setdefault` adds the key and keeps an existing value |
| Settings.EnvJson | src/utils/config.py:23-24 | `os.getenv` is a string exactly when the variable is set |
| Settings.PyFloat | src/utils/config.py:36 | `float()` of integer text is its value; other text raises ValueError |
| Settings.EnvInt | src/utils/config.py:33-34 | the port is read only when its variable is set and non-empty; bad text raises ValueError |
| Settings.EnvFloat | src/utils/config.py:35-38 | a wait is read only when its variable is set and non-empty; bad text raises ValueError |
| Settings.LoadTexts | src/utils/config.py:20-32 | the cookies are copied; each optional text setting is there iff its variable is non-empty; no other key |
| Settings.LoadNumbers | src/utils/config.py:33-43 | the port, then the waits, are parsed and the first failure raises; the waits default to 15 and 20; no text setting is touched |
| Settings.LoadFromEnv | src/utils/config.py:19-43 | `_load_from_env` gives exactly the settings `FromEnv` describes |
| Settings.RequiredNamesFirst | src/utils/config.py:60-64 | the required check fails iff a key is missing or falsy, naming the first such key |
| Settings.DefaultsKeep | src/utils/config.py:66-70 | the defaults never overwrite, add the four keys, and touch nothing else |
| Settings.DictObject.SetDefault | src/utils/config.py:67-70 | `setdefault` adds the key with the value unless present, in place, and changes no other key |
| Settings.ValidateConfig | src/utils/config.py:60-70 | the result is the required check; on success the dict gets the four defaults in place; on failure it is unchanged |
| Settings.FileConfig | src/utils/config.py:45-58 | every failure is "配置加载失败: …"; success iff the file parses to a dict with both cookies truthy, and then the defaults are added |
| Settings.LoadFromFile | src/utils/config.py:45-58 | `_load_from_file` does what `FileConfig` says |
| Settings.FileKeepsValues | src/utils/config.py:54-55 | a file with both cookies keeps every value it has and gains only the missing defaults |
| Settings.Config.Get | src/utils/config.py:72-74 | `get` gives the stored value or the default |
| Settings.LoadConfig | src/utils/config.py:7-13 | the environment path iff both cookie variables are non-empty, otherwise the file path; failures propagate |
| Settings.EnvHasCookies | src/utils/config.py:10-17 | the environment path always yields both cookies truthy |
| LegacySettings.LegacyEnvConfig | config.py:21-30 | the older environment dict has exactly six keys |
| LegacySettings.LegacyFileConfig | config.py:32-50 | every failure is "配置加载失败: …"; success iff the file parses to a dict with both cookies truthy, returned unchanged |
| LegacySettings.LegacyGet | config.py:52-56 | `get` succeeds iff the value is there and truthy; otherwise ValueError("无法获取配置项: key") |
| LegacySettings.LegacyLoadConfig | config.py:5-19 | the environment path iff both cookie variables are non-empty, otherwise the file |
| LegacySettings.LegacyEnvGet | config.py:21-30 | on the environment path a setting can be read iff its variable is non-empty, and it is the variable's text |
| LegacySettings.LegacyCookiesReadable | config.py:42-56 | whichever path loaded them, both cookies can be read with `get` |
| LegacySettings.FileAsLegacy | config.py:32-50 | both loaders accept the same parsed files; the newer adds only the four defaults |
| LegacySettings.EnvAsLegacy | config.py:21-30 | on the environment path the loaders agree on the cookies and on which optional text settings are truthy |

## Findings

| source | as written | input that shows it | evidently intended | confidence | as-written member | corrected member |
|---|---|---|---|---|---|---|
| music_partner_bot.py:26 | `ExtraTask(self.session, self.logger)` and, at line 72, `Signer(self.session, task_data["id"], self.logger)` omit the `config` argument both constructors require, so every run past the batch fetch raises TypeError and returns False | a valid account, a complete batch with an `id`, an empty extra queue | pass `self.config`, so such a run returns True; for an incomplete batch or a non-empty queue the passed config must also provide `get_wait_time`, which the root `Config` of config.py (the one main.py:41 builds) lacks, so the corrected run models a config like the one of src/utils/config.py | high (not executed) | DailyBot.BotRunAsWritten, DailyFacts.AritySlip | DailyBot.BotRun, DailyFacts.AritySlip |
| extra_task.py:73 | `Signer(self.session, task_id, self.logger)` omits `config`, so every item whose report succeeds fails with TypeError and, with no isolation, aborts the run | any queue whose first item's report is accepted | pass `self.config` (one that provides `get_wait_time`, as src/utils/config.py does and the root `Config` of config.py built at main.py:41 does not), so the item is rated; with the root `Config` the rating would still fail inside `sign` with "评分过程出错: …", and extra_task.py:31 would raise after the first item | high (not executed) | LegacyExtra.SingleAsWritten, LegacyExtra.AsWrittenNeverRates | Extra.SingleRun, ExtraFacts.ReportGatesRating |

The rest of the model uses the corrected members: `DailyBot.BotRun` and the older engine's `LegacyRun` build both objects with their configuration.

## Left out

- The AES block function is a parameter. The model has CBC chaining, the IV, padding and base64, but not the cipher rounds.
- Randomness is a parameter: a function from draw number to a choice, plus a counter of draws used.
- Env.World.Sleep: a pause never fails. In the source every pause first calls `get_wait_time` (src/utils/config.py:76-80), whose `float()` of the wait settings and `random.uniform` raise for non-numeric or null settings, and `time.sleep` raises for a negative draw; the waits read from the settings file are not checked when it is loaded. The model assumes the wait settings are non-negative numbers, so these failures are not modelled: a rating whose pause fails (inside `sign`'s `try`, signer.py:66-70) and an extra item counted as a success whose following pause fails (src/core/tasks/extra.py:52-57).
- Sleep durations are not modelled. `get_wait_time` in src/utils/config.py:76-80 draws a float with `random.uniform`. Each sleep is recorded with its reason only.
- Logging is left out. Where a log line reads a dict and can raise, that read is modelled (`RatedLog`, `Blame`, `Rewrap`).
- The HTTP session is a script of answers. An exhausted script counts as a failed connection. Response cookies are not merged into the jar, and request headers are not modelled.
- A POST is recorded by its JSON payload and the signer's seed. `Signer.WireFormSpec` states how the two form fields follow from them.
- Signer.Sign: the source retries on a rate-limit answer without any cap. The model's retries end because every retry consumes one answer from the finite script.
- Python's own error texts, such as the TypeError of `d[key]` on a list, are approximated. Kinds and the texts the code writes itself are exact.
- Json.Repr: `str()` of a non-string `message` or `msg` (a list or dict in an error answer) quotes every inner string with `'` and escapes nothing. Python's `repr` switches to `"` for a string holding `'` and escapes backslashes, newlines and other control characters. The error texts built from such a message (src/core/tasks/extra.py:81, :136, extra_task.py:48, :107, signer.py:110) are exact only when its inner strings need no escaping.
- Json values have no floats, and `==` between JSON values (`PyEq`) compares dict keys in order.
- Settings.PyFloat: `float()` is modelled on integer text only; other text raises ValueError.
- Text.ParseInt: `int()` of text is modelled as an optional sign followed by ASCII digits; the surrounding whitespace, the underscores between digits and the non-ASCII digits that Python's `int()` also accepts are refused with ValueError. Json.PyInt inherits this for string arguments.
- The settings file is an input: absent, unreadable (with the error), or parsed JSON. The order of a settings dict's keys is not modelled.
- CookieCheck.Validate, LegacyCookieCheck.LegacyValidate: `validate` sends its requests through the shared session (src/validators/cookie.py:40, :45). The model returns the requests and answers as a verdict's events. It does not append them to a world's trace, and it does not consume the world's answers.
- Auth.Login: the phone number and password only go into the request, so the login answer (or the exception in its place) is the parameter. A missing `Set-Cookie` header is taken as "".
- src/core/tasks/daily.py and src/core/signer.py are not part of this model. The newer bot uses the older bot's batch check and batch loop and the signer of signer.py in their place.
- `RunDaily`, `RunBatch` and `RunExtra` (and the `CoreRun…` ones) are stages of the single `run` method, split so that each stage is proved on its own.
