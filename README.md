# Roast-my-Douban generation pipeline, modelled in Dafny

This project models the server-side generation pipeline of the Douban "roast" web
application, plus the bookkeeping state of its browser-side `Roaster` class:

- **Provider router** (`Llm`): the provider pool built from an immutable
  configuration record, the random pick (given as a real `rand` in `[0, 1)`), the five
  vendor adapters (each vendor's answer given as an oracle), and the single fallback to
  the first other pool entry.
- **Model-output extraction** (`ModelOutput`, `Compliment`, `Roast`): fence stripping,
  the brace-balance scan of the compliment route, the greedy first-`{`/last-`}` slice,
  the `, #` → `, //` second-chance patch, and the merge of the provider's display name
  into the parsed object. `JSON.parse(jsonrepair(…))` and `JSON.parse` are abstract
  partial parsers passed in as functions.
- **Douban fetch and cache** (`FetchDouban`, `TtlCache`): parameter check, cache key,
  cache hit short-circuit, the status → error mapping, record mapping with defaults, the
  null-rating filter, and the "cache only when count >= 30" rule. The cache is a class
  holding a key → (value, expiry) map and a flag saying whether the backing store fails.
- **Rate-limit gate** (`RateLimit`): client-IP extraction from proxy headers, the
  `ip:date` identifier, and the fail-open decisions. The limiter's verdict is an input.
- **Roaster client state** (`Roaster`): `reset`, the bounded, id-stamped log buffer,
  the "worth scanning" filter and its threshold, the ingestion ticker, the merge of
  thoughts and comments in `processRoastData`, and the `scannedCount` accounting of the
  playback loop. Random draws are boolean oracles.

Shared pieces: `Base` (Option, Result), `Json` (a tagged JSON value with JavaScript
truthiness, optional-chained member reads, `String(…)` and object spread), `Text`
(`trim`, `indexOf`, `lastIndexOf`, `split(…)[0]`, global `replace`), `Http` (responses).

Strings are `seq<char>`. `trim` removes ECMAScript's white-space and line-terminator
code points (`Text.IsSpace`).
JSON numbers are integers.

Where the code and the documented intent of the system disagree, the model follows
the code:

- The documented intent is that caller-supplied API keys override and restrict the provider pool.
  In the code, `generateRoast` takes only the prompt, so the compliment route's
  `apiKeys` argument is ignored (`src/routes/api/compliment/+server.ts:77`).
  `Compliment.Post` ignores them too.
- The documented intent is a backup provider drawn at random from the rest of the pool.
  The code takes the first other entry in pool order (`src/lib/server/llm.ts:133`).
- The documented intent is a rejection carrying zero remaining requests. The code copies the
  limiter's own `remaining` into the 429 header.
- The documented intent is that the compliment route recovers the object the model
  serialised. The brace-balance scan (`src/routes/api/compliment/+server.ts:85-89`)
  also counts braces inside JSON string literals, so a `}` inside a string ends the
  object early. For `{"a":"}","b":1}` the only candidate is `{"a":"}`
  (`Compliment.BraceInStringCuts`), and the member `b` is lost.
- Only the compliment route runs the brace-balance scan and the `, #` patch. The roast
  route does only the greedy slice and a single `JSON.parse`.

## Model

| member | source | states |
|---|---|---|
| `Llm.Call` | src/lib/server/llm.ts:12-105 | An adapter fails with its "Missing …" message when its credential is unset (Doubao needs its key and its endpoint id). It fails when the request is rejected, when a fetch-based adapter sees a non-2xx status, or when the SDK raises. It succeeds exactly otherwise, with the answer's text tagged by the fixed display name ('Gemini 2.5 Flash', 'DeepSeek V3', 'Qwen Plus', 'Doubao', 'GLM-4 Plus'). A 2xx answer whose `choices[0].message` has no `content` is still a success, with undefined text. |
| `Llm.Pool` | src/lib/server/llm.ts:110-116 | A provider is in the pool iff its credential is set. The pool is strictly ordered Gemini, DeepSeek, Qwen, Doubao, Zhipu, so it has no repeats. |
| `Llm.BuildPool` | src/lib/server/llm.ts:110-116 | The sequence of guarded pushes builds exactly `Pool(cfg)`. |
| `Llm.OrderedAppend` | src/lib/server/llm.ts:112-116 | Pushing a provider ranked after every entry keeps the pool strictly ordered. |
| `Llm.PickIndex` | src/lib/server/llm.ts:123 | `floor(rand * n)` lies in `[0, n)` for `rand` in `[0, 1)`. |
| `Llm.FirstOther` | src/lib/server/llm.ts:133 | The backup is a pool member other than the selected one. There is none iff every entry is the selected one. It is `pool[0]` whenever `pool[0]` was not selected. |
| `Llm.BackupChoice` | src/lib/server/llm.ts:133-138 | In a pool without repeats, the backup of entry `i` is `pool[1]` when `i == 0`, otherwise `pool[0]`. A one-entry pool has no backup. |
| `Llm.FindBackup` | src/lib/server/llm.ts:133 | The `find` loop returns the same backup as `FirstOther`. |
| `Llm.RouteChoice` | src/lib/server/llm.ts:109-139 | An empty pool fails with "No LLM providers configured…" and invokes nothing. Otherwise the picked provider is invoked first. On success its result is returned after one invocation. On failure with a one-entry pool, the original error is returned. Otherwise exactly one more invocation is made, of `pool[0]` (or `pool[1]` if `pool[0]` was picked), and its result or error is returned as is. |
| `Llm.RouteInvokesConfigured` | src/lib/server/llm.ts:110-136 | Only configured providers are invoked, and never the same one twice. |
| `Llm.RouteNamesAnswerer` | src/lib/server/llm.ts:126-137 | A successful generation carries the display name of the last provider invoked. |
| `Llm.Fallback` | src/lib/server/llm.ts:128-138 | After a failure, the backup found by `find` is invoked once and its outcome returned. With no backup, the first error is rethrown after a single invocation. |
| `Llm.GenerateRoast` | src/lib/server/llm.ts:109-139 | The imperative router (pushes, pick, try, `find`, retry) returns exactly the result and invocation list of `Route`. |
| `ModelOutput.StripFences` | src/routes/api/compliment/+server.ts:80 | After removing every fence (three backticks, with or without `json`) and trimming, the text holds no fence and has no leading or trailing whitespace. |
| `ModelOutput.NoFenceLeft` | src/routes/api/roast/+server.ts:139 | The global removal of fences leaves no three-backtick sequence behind, even where removing one joins backticks on both sides. |
| `ModelOutput.GreedySlice` | src/routes/api/roast/+server.ts:142-147 | If the first `{` precedes the last `}`, the result is exactly that inclusive slice, starting with `{`, ending with `}`, with no `{` before it and no `}` after it. Otherwise the text is unchanged. Either way it is a substring of the text. |
| `Compliment.ScanBalanced` | src/routes/api/compliment/+server.ts:84-94 | The balance loop stops at the first index where the running `{` minus `}` count from the first `{` returns to 0, or reports that it never does. |
| `Compliment.ExtractJson` | src/routes/api/compliment/+server.ts:81-103 | The candidate is the balanced slice when the scan closes. Otherwise it is the greedy slice, or the whole cleaned text. |
| `Compliment.ClosedCandidate` | src/routes/api/compliment/+server.ts:84-94 | A closed scan gives a slice that starts with `{`, ends with `}`, has equal `{` and `}` counts, and every proper prefix of it has more `{` than `}`. |
| `Compliment.CandidateUnique` | src/routes/api/compliment/+server.ts:84-103 | The cleaned text determines the candidate uniquely. |
| `Compliment.CandidateIsSlice` | src/routes/api/compliment/+server.ts:84-103 | The candidate is always a contiguous substring of the cleaned text. It is either the whole text or a slice from `{` to `}`. |
| `Compliment.BraceInStringCuts` | src/routes/api/compliment/+server.ts:84-94 | The scan does not skip string literals: the only candidate of `{"a":"}","b":1}` is `{"a":"}`. |
| `Compliment.NoHashCommentLeft` | src/routes/api/compliment/+server.ts:111 | Rewriting every `, #` to `, //` leaves no `, #` behind. |
| `Compliment.PatchHashComments` | src/routes/api/compliment/+server.ts:111 | The patched text holds no `, #`. A text without `, #` is unchanged. |
| `Compliment.UseRichPrompt` | src/routes/api/compliment/+server.ts:24 | The rich prompt is used iff one of `apiKeys.google`, `.deepseek`, `.qwen`, `.chatgpt` is truthy. It is never used when `apiKeys` is not an object. |
| `Compliment.Normalize` | src/routes/api/compliment/+server.ts:80-113 | The first parse is of the extracted candidate. Only if it fails is the patched candidate parsed, and that outcome is final. |
| `Compliment.Reply` | src/routes/api/compliment/+server.ts:115-122 | A parse failure becomes a 500 "Failed to generate compliment: …". A success is exactly the parsed object's spread fields plus `model`, set to the provider's display name and overriding any `model` from the output. |
| `Compliment.Post` | src/routes/api/compliment/+server.ts:17-124 | A missing or non-array `interests` gives a 400 before any generation. A `null` element of `interests` makes the prompt building throw, which gives a 500 with no provider invoked. A generation error becomes a 500 with its message. A generation with undefined text becomes a 500 with the TypeError of `.replace` on undefined. Otherwise the answer is `Reply` of the normalised text. |
| `Roast.Candidate` | src/routes/api/roast/+server.ts:139-147 | The parsed candidate is a substring of the cleaned text and holds no fence. |
| `Roast.Post` | src/routes/api/roast/+server.ts:76-157 | A missing or non-array `interests` gives a 400 before any generation. Any generation or parse failure, and a generation with undefined text, becomes the 500 "Failed to generate roast". A success holds exactly the parsed fields plus `_model` set to the display name, with `_model` taking precedence. |
| `TtlCache.Fresh` | src/lib/server/cache.ts:10 | A written entry expires 604800 seconds (7 days) after the write. |
| `TtlCache.SetThenGet` | src/lib/server/cache.ts:25 | A value written at `now` is read back unchanged before `now + 7 days` and is gone from then on. |
| `TtlCache.SetKeepsOthers` | src/lib/server/cache.ts:25 | A write leaves what every other key reads unchanged. |
| `TtlCache.Cache.Get` | src/lib/server/cache.ts:13-21 | The stored live value, or null when the store fails. It never raises. |
| `TtlCache.Cache.Set` | src/lib/server/cache.ts:23-29 | The store gets the value with expiry now + TTL. A failing store is left unchanged and nothing is raised. |
| `FetchDouban.KeyInjective` | src/routes/api/fetch-douban/+server.ts:12 | Keys `"@rmd/cache:douban:" + userId + ":" + type` of distinct (user, type) pairs differ, for user ids without `:`. |
| `FetchDouban.FetchData` | src/routes/api/fetch-douban/+server.ts:35-44 | 404 gives the not-found error, 403 the blocked error, and any other non-ok 4xx/5xx status keeps its status with the generic upstream message. A network failure, a 2xx body that is not JSON, or a non-2xx status outside 400–599 gives the generic 500. A 2xx with a body succeeds with it. |
| `FetchDouban.Interests` | src/routes/api/fetch-douban/+server.ts:54 | A page's records are its `interests` list, or none when that is missing or falsy. A `null` page or a non-iterable list throws. |
| `FetchDouban.KitError` | src/routes/api/fetch-douban/+server.ts:38-42 | `error(status, message)` always yields an HTTP error whose status lies in 400–599. It carries the given status and message iff the status is in that range; otherwise it is the generic 500. |
| `FetchDouban.RecordJson` | src/routes/api/fetch-douban/+server.ts:57-65 | The serialised record always has `title` and `cover_url`. Each optional field is present iff it is defined, with its value. There are no other properties. |
| `Json.Merge` | src/routes/api/compliment/+server.ts:115-118 | `{...j, key: value}` has exactly the spread keys plus `key`. `key` holds the value, and every other key keeps its spread value. |
| `FetchDouban.Record` | src/routes/api/fetch-douban/+server.ts:57-65 | The title defaults to '未知'. The rating is `rating.value`. The cover falls back from `pic.large` to `cover_url` to ''. |
| `FetchDouban.MapRecords` | src/routes/api/fetch-douban/+server.ts:57-65 | A successful mapping yields one record per raw record. A failure is the generic 500. |
| `FetchDouban.MapRecordsElements` | src/routes/api/fetch-douban/+server.ts:57-65 | The mapping succeeds iff no raw record is `null`. Each record is then mapped in place by `Record`. |
| `FetchDouban.MapRecordsAppend` | src/routes/api/fetch-douban/+server.ts:54-57 | Mapping page 1's records followed by page 2's is mapping each page in turn. |
| `FetchDouban.KeepRated` | src/routes/api/fetch-douban/+server.ts:65 | It keeps exactly the records whose rating is neither null nor undefined. |
| `FetchDouban.KeepRatedAppend` | src/routes/api/fetch-douban/+server.ts:65 | The filter distributes over concatenation, so the kept records stay in order across pages. |
| `FetchDouban.Collect` | src/routes/api/fetch-douban/+server.ts:47-65 | Page 1's error wins, then page 2's. Every record kept is rated. |
| `FetchDouban.CollectOrder` | src/routes/api/fetch-douban/+server.ts:54-65 | The records are page 1's rated records followed by page 2's. |
| `FetchDouban.Payload` | src/routes/api/fetch-douban/+server.ts:67-70 | `count` equals the number of records in `interests`, which are the kept records in order. |
| `FetchDouban.Post` | src/routes/api/fetch-douban/+server.ts:5-85 | A missing `userId` or `type` gives a 400 before any cache lookup. A truthy cached value is returned with no fetch and no write. Otherwise a failure keeps its error. A success returns the payload and writes that same payload to the cache iff count >= 30. |
| `RateLimit.GetClientIp` | src/lib/server/ratelimit.ts:15-24 | A non-empty `x-forwarded-for` gives its first comma-separated segment, trimmed. Otherwise the first non-empty of `x-real-ip`, `cf-connecting-ip`, `x-vercel-forwarded-for` is used, else 'unknown'. |
| `RateLimit.IdentifierInjective` | src/lib/server/ratelimit.ts:38-39 | The identifier `ip + ':' + date` (the part of the ISO timestamp before 'T') tells (address, day) pairs apart, IPv6 addresses included. |
| `RateLimit.TooManyRequests` | src/lib/server/ratelimit.ts:44-56 | The rejection is a 429 whose X-RateLimit-Limit and X-RateLimit-Remaining headers are the verdict's numbers. |
| `RateLimit.CheckRateLimit` | src/lib/server/ratelimit.ts:26-65 | An 'unknown' IP is allowed without consulting the limiter. Otherwise the limiter is asked about `ip:date`. The request is blocked iff the verdict says no, and a limiter error allows it. |
| `RateLimit.WithRateLimit` | src/lib/server/ratelimit.ts:6-82 | The handler runs iff the check allows the request, with a limit of 5 per day. Otherwise the 429 is returned unchanged. |
| `Roaster.LogAfter` | src/lib/roast.svelte.ts:37-43 | The new entry, stamped with the counter, goes last. While scanning, a buffer at 50 drops only its oldest entry, so a buffer of at most 50 stays within 50. Other statuses never trim. |
| `Roaster.LogAfterContents` | src/lib/roast.svelte.ts:38-42 | The buffer after `addLog` is the old buffer plus the entry, or the old buffer minus its first entry plus the entry. |
| `Roaster.LogAfterKeepsIds` | src/lib/roast.svelte.ts:38-42 | Log ids stay strictly increasing and below the counter. |
| `Roaster.IdsOrdered` | src/lib/roast.svelte.ts:38-42 | When each id is below the next and the last is below the counter, every id is below the counter and ids strictly increase along the whole buffer. |
| `Roaster.IdsBelowTail` | src/lib/roast.svelte.ts:40-42 | Dropping the oldest entry keeps the ids in order and below the counter. |
| `Roaster.AppendLogsKeepsIds` | src/lib/roast.svelte.ts:37-43 | A run of `addLog` calls keeps the ids strictly increasing and below the counter. |
| `Roaster.AppendLogsConcat` | src/lib/roast.svelte.ts:37-43 | Logging one run of lines and then another leaves the same buffer as logging both runs as one. The counter carries over between the runs. |
| `Roaster.AppendLogsBounded` | src/lib/roast.svelte.ts:40-42 | While scanning, any run of `addLog` calls keeps a buffer of at most 50 within 50. |
| `Roaster.KeepLast` | src/lib/roast.svelte.ts:169-171 | The ingestion trim gives a suffix of the buffer: the last 15 entries of a longer buffer, a shorter one unchanged. |
| `Roaster.IdsBelowSuffix` | src/lib/roast.svelte.ts:169-171 | Every suffix of a buffer whose ids increase and stay below the counter has the same property. |
| `Roaster.KeepLastKeepsIds` | src/lib/roast.svelte.ts:169-171 | The ingestion trim keeps the ids strictly increasing and below the counter. |
| `Roaster.IngestDate` | src/lib/roast.svelte.ts:160 | The date shown is the first (up to) 10 characters of `create_time`, or '未知日期' when it is missing or empty. |
| `Roaster.IngestLine` | src/lib/roast.svelte.ts:160-164 | The ingestion line starts with "[读取] ", the date, a space, the first 12 characters of the title and "... ". |
| `Roaster.ItemLogs` | src/lib/roast.svelte.ts:221-237 | The lines for one record start with "正在分析: 《title》". With a thought there are 3 lines without a comment and 2 with one, the second the thought with "->" replaced. Without a thought there is only the first line iff the rating is not 5, not at most 2, and there is no comment. |
| `Roaster.SyncThenPlay` | src/lib/roast.svelte.ts:184-199 | Logging the sync line (when the analysis is a list) and then the played lines is logging both as one run. |
| `Roaster.ItemsToScan` | src/lib/roast.svelte.ts:74 | An item is kept iff it has non-empty tags, a truthy rating or a non-empty comment. |
| `Roaster.FetchFailure` | src/lib/roast.svelte.ts:63-81 | The roast may go ahead iff the fetch succeeded, its count is non-zero, and at least 5 items are worth scanning. Otherwise there is a non-empty error message. |
| `Roaster.CollectComments` | src/lib/roast.svelte.ts:186-189 | The first `forEach` builds the comment map `CommentsOf(items)`. |
| `Roaster.CommentsOfLastWins` | src/lib/roast.svelte.ts:186-189 | A title is in the comment map iff some scanned item with that title has a comment, and the last such item wins. |
| `Roaster.FirstNull` | src/lib/roast.svelte.ts:191-196 | The number of entries before the first `null` one: every entry before it is an analysis, the one at it is `null`. |
| `Roaster.Analyses` | src/lib/roast.svelte.ts:191-196 | The analyses the loop gets through are exactly the entries before the first `null`, in order. |
| `Roaster.Entries` | src/lib/roast.svelte.ts:196 | Analyses put back into the array are all non-null entries, element for element. |
| `Roaster.MergeAnalysis` | src/lib/roast.svelte.ts:191-196 | The second `forEach` records every thought under its title and annotates every analysis, up to the first `null` entry, and reports completion iff there is none. |
| `Roaster.WithThoughtsLastWins` | src/lib/roast.svelte.ts:191-192 | Every analysed title maps to the thought of its last analysis. Titles no analysis mentions keep their old thought. |
| `Roaster.Annotate` | src/lib/roast.svelte.ts:193-195 | `user_comment` is set to the title's comment iff the comment map has the title. Title and thought are unchanged. |
| `Roaster.LastPlayedBelow` | src/lib/roast.svelte.ts:202-218 | The index of the last record below `n` that is not sampled out: every record after it is sampled out, and it is -1 iff all are. |
| `Roaster.LastPlayedIsLast` | src/lib/roast.svelte.ts:202-218 | The current item after playback is the last record not sampled out, or the previous current item when every record was. |
| `Roaster.Processed` | src/lib/roast.svelte.ts:184-199 | Without `item_analysis` the payload is unchanged. A truthy non-array throws "forEach is not a function". A `null` entry throws reading `title`. Otherwise every entry is its analysis annotated with the comment map, in place. |
| `Roaster.Roaster.constructor` | src/lib/roast.svelte.ts:1-24 | The initial state: idle, empty log, counter 0, empty analysis map. |
| `Roaster.Roaster.Reset` | src/lib/roast.svelte.ts:26-35 | Status 'scanning', empty error, count 0, no current item or result, empty analysis map, and a log holding only the entry with id 0 with the counter at 1. |
| `Roaster.Roaster.AddLog` | src/lib/roast.svelte.ts:37-43 | The buffer becomes `LogAfter` of the old one, the counter goes up by exactly 1, and nothing else changes. |
| `Roaster.Roaster.StartIngestion` | src/lib/roast.svelte.ts:149-153 | The ingestion starts at the first record and nothing else changes. |
| `Roaster.Roaster.IngestTick` | src/lib/roast.svelte.ts:153-174 | The next record (wrapping to the first) becomes current. When the draw says so, one line is logged and the buffer is cut to its last 15. Ids stay increasing and below the counter. |
| `Roaster.Roaster.KeepFastLogs` | src/lib/roast.svelte.ts:169-171 | The buffer becomes `KeepLast(old, 15)` with the ids still in order, and nothing else changes. |
| `Roaster.Roaster.StopIngestion` | src/lib/roast.svelte.ts:177-182 | The ingestion stops and nothing else changes. |
| `Roaster.Roaster.ProcessRoastData` | src/lib/roast.svelte.ts:184-199 | Returns `Processed`: with a complete `item_analysis` list, every thought is recorded under its title and one sync line is logged. A `null` entry throws after the thoughts before it are recorded, with no line logged. A non-array throws with nothing changed. Without it, nothing changes. |
| `Roaster.Roaster.LogLines` | src/lib/roast.svelte.ts:239-243 | Logging a list of lines is `addLog` of each in turn, and the counter rises by their number. |
| `Roaster.Roaster.PlayItem` | src/lib/roast.svelte.ts:218-243 | A played item becomes current, adds one to the count, and logs its lines. |
| `Roaster.Roaster.PlayNext` | src/lib/roast.svelte.ts:202-243 | One loop turn adds exactly one to the count, whether the item is sampled out or played. |
| `Roaster.Roaster.PlayScanningAnimation` | src/lib/roast.svelte.ts:201-251 | `scannedCount` rises by exactly the number of items. The log is the played lines appended in order, and the current item is the last one played. |
| `Roaster.Roaster.Begin` | src/lib/roast.svelte.ts:45-90 | An empty `userId` only sets '请输入豆瓣ID', with every other field unchanged. Otherwise the session is reset and fetched. A failure ends in the error state with its message, the ingestion stopped and the two log lines with ids 0 and 1. A success logs five lines with ids 0-4, starts the ingestion over the fetched records and returns the items worth scanning. |
| `Roaster.Roaster.Lock` | src/lib/roast.svelte.ts:83-90 | Three lines are logged with consecutive ids, and the ingestion starts. |
| `Roaster.Roaster.Fail` | src/lib/roast.svelte.ts:141-146 | The ingestion stops and the state becomes 'error' with the message, or '未知错误' when the message is empty. |
| `Roaster.Roaster.Finish` | src/lib/roast.svelte.ts:113-146 | A failed roast, or a payload whose processing throws, ends in the error state with count 0 and the log, current item and result unchanged. A successful one stores the processed payload, counts every item, logs the sync and played lines then the report line, leaves the last played record current, and ends in 'success'. |
| `Roaster.Roaster.Replay` | src/lib/roast.svelte.ts:126-139 | If processing throws, the error state with its message and the log unchanged. Otherwise the payload is stored, the log is the old one plus the sync and played lines plus the report line with consecutive ids, every item is counted, the last played record is current, and the status is 'success'. |
| `Roaster.Roaster.PlayAndReport` | src/lib/roast.svelte.ts:133-139 | The played lines and then the report line are logged, the count rises by the number of items, the last played record is current, and the status is 'success'. |

## Left out

- Network I/O is not modelled. Vendor HTTP calls and the Gemini SDK are an oracle `Provider -> VendorReply`. The Douban fetch is two given page results. Redis is a map with a failure flag. The Upstash fixed-window counting is an oracle verdict.
- `jsonrepair` and `JSON.parse` are not reimplemented. They are abstract partial parsers passed in as functions.
- `Math.random` is an input. The provider pick is a real `rand` in `[0, 1)`. The client's coin flips are boolean sequences, which also stand for the floating-point skip probability of the playback sampling.
- `Promise.all` is sequential here. When both page fetches fail, the model reports page 1's error; the source reports whichever rejection comes first in time.
- Timers (`setInterval`, `setTimeout`) and Svelte `$state` reactivity are not modelled. The ingestion interval is a value that `IngestTick` advances one tick at a time.
- `new Date().toISOString()` is an input string. The cache's clock is an integer `now` in seconds.
- Prompt and archetype text are not modelled. Only the `useRichPrompt` switch is.
- Logging (`console.*`) is not modelled.
- Strings are `seq<char>` without UTF-16 surrogate handling. `trim` removes the fixed code points listed in `Text.IsSpace`; a Unicode version whose Space_Separator set differs is not modelled.
- `item_analysis` elements that are neither objects nor `null`, and titles or thoughts that are not strings, are not modelled. An element is an analysis or `null`.
- The TypeError messages are V8's wording. A `content` that is `null` or not a string is treated like a missing one, and its TypeError wording would differ.
- JSON numbers are integers, so fractional ratings and counts are not modelled.
- Redis serialisation of cached values (a round-trip through JSON text) is taken as the identity.
- `Roaster.ItemsToScan`: the contract states membership, not order. Order follows from the definition, which keeps items in sequence.
- `FetchDouban.KeepRated`: the contract states membership. Order is stated by `KeepRatedAppend` together with the definition.
- The client's `start` is split into `Begin` (up to the roast request) and `Finish` (from the roast's answer on). The request body sent to `/api/roast` is not modelled.
- `vite.config.ts` is build configuration and is not part of this model.
