# Stock chat and podcast upload service, modelled in Dafny

This project models the deterministic core of a small stock-analysis backend:

- the **trading-session classifier**: the session of a time of day (1 before 15:00, 2 from 15:00 up to 17:00, 3 after);
- the **post store**: the `stock` table (symbol to stock id) and the append-only `post` table, with the two save
  operations. A stock post is saved only after its symbol is found. A market post is always saved, with topic and
  level `MARKET`;
- the **chat answer**: the classifier's output, stripped of whitespace, is the intent. `MARKET` answers from the
  latest market post. `OTHER` goes to the general assistant. Anything else is looked up as a stock symbol;
- the **podcast uploader**: it picks the first audio file of a directory and derives its title, tags and
  description. It then builds the multipart form, sends one POST and turns the server's answer into a result.

Files: `wrappers.dfy` (Option, Outcome, Result), `seqs.dfy` (list comprehension with a condition),
`pytext.dfy` (the Python string operations used: `strip`, `rstrip`, `lower`, `upper`, `in`, `split`, `rfind`),
`trading_session.dfy`, `post_store.dfy` (a `Database` class whose methods append to the post table),
`chat_service.dfy` (the chat endpoint and its two queries, as functions over the tables) and
`podcast_upload.dfy` (file names, tags, the form, single-file and directory upload).

Side effects are parameters:

- The two language-model agents are functions `string -> string`.
- The HTTP server is a function `post: UploadRequest -> HttpOutcome`. It returns a response (status, body text,
  body as JSON when it parses) or the exception raised while sending. "No request is sent" is stated as "the
  result does not depend on `post`".
- The filesystem is a `Directory` value: it says whether the path exists and is a directory, and lists its
  entries in iteration order. Each entry has a name, a path and an is-regular-file flag. `stillExists` says whether
  the chosen file is still there when its upload starts.
- The clock is `now: Time` for the session. The date tag (`%Y%m%d`) and the description timestamp
  (`%d/%m/%Y %H:%M`) are opaque strings. The source reads the clock separately for each of the three.
- The database's row order is not promised: `get_stock_info` has no `ORDER BY`, and `get_market_info` may tie
  on `created_at`. A `pick: nat` parameter names the row the database returns among those the query allows.
  Lemmas show that every allowed row is returned for some `pick`.
- `created_at` is a parameter of the save methods: the database stamps it on insert.

A missing directory, a path that is not a directory, and a missing file passed to the single-file upload
all raise in the code (they are `Err` results here). They are not converted into a failure result.

## Model

| member | source | states |
|---|---|---|
| `TradingSession.Session` | src/db_utils/pg_services.py:42-51 | the session is 1 exactly before 15:00:00, 2 exactly from 15:00:00 up to but excluding 17:00:00, 3 exactly from 17:00:00 on, measured as elapsed time since midnight |
| `TradingSession.BeforeIsEarlier` | src/db_utils/pg_services.py:45-48 | comparing times field by field, hour first, agrees with comparing their elapsed time since midnight |
| `TradingSession.SessionMonotonic` | src/db_utils/pg_services.py:42-51 | a later time never falls into an earlier session |
| `TradingSession.SessionBoundaries` | src/db_utils/pg_services.py:46-51 | 14:59:59.999999 is session 1; 15:00:00 and 16:59:59.999999 are session 2; 17:00:00 is session 3 |
| `PostStore.Database.SaveSupportOutput` | src/db_utils/pg_services.py:9-40 | an unknown symbol fails with the not-found error and leaves the post table unchanged; a known one appends exactly one SYMBOL row (looked-up stock id, session of `now`, content = analysis advice) after the unchanged earlier rows; the stock table is never changed and every SYMBOL row keeps naming an existing stock |
| `PostStore.Database.SaveMarketAnalysis` | src/db_utils/pg_services.py:53-70 | always appends exactly one row with topic and level MARKET, no stock id and no session, after the unchanged earlier rows |
| `ChatService.StockInfo` | src/main.py:86-97 | a row is returned exactly when the symbol has a stock row and some post carries its stock id; any row returned is such a post |
| `ChatService.StockInfoReachesEveryPost` | src/main.py:95 | without an ORDER BY, every post of the symbol's stock may be the row returned |
| `ChatService.LatestCreatedAt` | src/main.py:104-107 | the newest creation time among the rows it is given (the MARKET rows): one of them carries it and none is later |
| `ChatService.MarketInfo` | src/main.py:99-109 | no row exactly when there is no MARKET post; otherwise a MARKET post whose creation time is not earlier than any other MARKET post's |
| `ChatService.MarketInfoReachesEveryLatest` | src/main.py:104-107 | every MARKET post with the latest creation time may be the row returned |
| `ChatService.NewestMarketPostWins` | src/main.py:104-107 | a MARKET post created after every earlier MARKET post is the one returned, whatever the tie choice |
| `ChatService.Chat` | src/main.py:111-134 | the answer is the assistant's answer, the no-market message, the not-found message for the stripped intent, or built from the content of a stored post; its branches are stated by the `Chat*` lemmas below |
| `ChatService.Reply` | src/main.py:117-134 | intent OTHER gives the assistant's answer; intent MARKET gives the no-market message exactly when there is no MARKET post; any other intent gives the not-found message exactly when the symbol has no stock row or no post carries its stock id |
| `ChatService.ChatOtherAnswer` | src/main.py:132-134 | when the stripped intent is OTHER, the answer is the question-answering agent's answer, verbatim |
| `ChatService.ChatMarketNoData` | src/main.py:117-123 | when the intent is MARKET, the answer is the no-market message exactly when there is no MARKET post |
| `ChatService.ChatSymbolNotFound` | src/main.py:124-130 | for any other intent, the answer is the not-found message for it exactly when the symbol has no stock row or no post carries its stock id |
| `ChatService.ChatMarketAnswer` | src/main.py:117-123 | with a MARKET post present, the answer is "Market Analysis: " followed by the content of a latest MARKET post |
| `ChatService.ChatSymbolAnswer` | src/main.py:124-130 | with a post for the symbol's stock, the answer is "Information about <symbol>: " followed by the content of one of its posts |
| `ChatService.ChatOtherIgnoresDatabase` | src/main.py:132-134 | for intent OTHER the answer is the same whatever the tables and row choices, so no query is made |
| `ChatService.ChatMarketIgnoresStock` | src/main.py:117-123 | for intent MARKET the answer does not depend on the stock table or the assistant |
| `ChatService.ChatIgnoresClassifierPadding` | src/main.py:114 | whitespace the classifier adds around its output does not change the answer |
| `PyText.StripIgnoresPadding` | src/main.py:114 | `strip()` gives the same result on a string with whitespace added at either end |
| `PyText.Strip` | src/main.py:114 | the stripped intent is no longer than the output and neither starts nor ends with whitespace |
| `PyText.StripIsTrimmedSlice` | src/main.py:114 | the stripped intent is a slice of the output with only whitespace before and after it |
| `PyText.StripKeepsCore` | src/main.py:114 | a string with no whitespace at either end is its own `strip()` |
| `Seqs.Filter` | src/db_utils/pg_services.py:202-205 | the list comprehension keeps only elements of the input that satisfy the condition |
| `Seqs.FilterKeeps` | src/db_utils/pg_services.py:202-205 | every element that satisfies the condition is kept |
| `Seqs.FilterAppend` | src/db_utils/pg_services.py:202-205 | the comprehension keeps listing order: filtering a concatenation concatenates the filtered parts |
| `Seqs.FilterFirst` | src/db_utils/pg_services.py:215-216 | the first element kept is the first element of the input that satisfies the condition |
| `PodcastUpload.Suffix` | src/db_utils/pg_services.py:204 | a file's suffix is empty or a dot followed by at least one non-dot character, taken from the end of the name |
| `PodcastUpload.SuffixIsExtByEnding` | src/db_utils/pg_services.py:204 | for an extension such as `.mp3` (a dot and a dot-free word), the lower-cased suffix is that extension exactly when the name ends with it in any case and has at least one character before it |
| `PodcastUpload.Stem` | src/db_utils/pg_services.py:225 | the stem followed by the suffix is the file name; the stem is the whole name exactly when there is no suffix |
| `PodcastUpload.AudioFilesEmpty` | src/db_utils/pg_services.py:201-207 | there is no candidate exactly when no entry is a regular file with a suffix in {.mp3, .wav, .m4a, .aac, .ogg, .flac}, in any letter case |
| `PodcastUpload.SymbolTag` | src/db_utils/pg_services.py:232-236 | at most one symbol tag; when present it is the upper-cased text before the first `_`, which is 2 to 5 characters long; when absent, no `_` stands at index 2 to 5 with no `_` before it |
| `PodcastUpload.SessionTag` | src/db_utils/pg_services.py:238 | the session tag is `session_1`, `session_2` or `session_3` for the three session codes |
| `PodcastUpload.KindOf` | src/db_utils/pg_services.py:242-251 | market kind exactly when "market" occurs in the stem in any case; stock kind exactly when "market" does not and "analysis" does; general otherwise |
| `PyText.LowerContains` | src/db_utils/pg_services.py:242-245 | a word occurs in the lower-cased stem exactly when some window of the stem lower-cases to it |
| `PodcastUpload.DeriveTags` | src/db_utils/pg_services.py:228-251 | the tags built one append at a time are the tag list of the stem, session of `now` and date; the description matches the content kind |
| `PodcastUpload.PodcastTagsLayout` | src/db_utils/pg_services.py:229-251 | 3 to 5 tags: an optional upper-cased prefix before the first `_` (present exactly when there is an `_` and the prefix has 2 to 5 characters), then `session_<n>`, then the date, then exactly the content tags |
| `PodcastUpload.MarketTakesPriority` | src/db_utils/pg_services.py:242-251 | a stem containing "market" in any case ends its tags with MARKET, ANALYSIS even if it also contains "analysis" |
| `PodcastUpload.VcbReportExample` | src/db_utils/pg_services.py:225-251 | `VCB_report.mp3` gives the title "Podcast: VCB_report" and the tags VCB, `session_<n>`, date, GENERAL |
| `PodcastUpload.ValuesOfAppend` | src/db_utils/pg_services.py:112-137 | the values sent under a name in two concatenated field lists are those of the first, then those of the second |
| `PodcastUpload.TagFieldValues` | src/db_utils/pg_services.py:135-137 | the tag fields send the tags, in order, under the name `tags` and nothing under any other name |
| `PodcastUpload.FormValuesByPart` | src/db_utils/pg_services.py:124-137 | under each name the form sends the required field, then the optional field when its value is not empty, then the tags |
| `PodcastUpload.UploadFormContents` | src/db_utils/pg_services.py:112-137 | the form starts with the audio part; it sends exactly one title and one secretKey; it sends description, uploadedBy and status once each when not empty and otherwise not at all; it sends the tags in order |
| `PodcastUpload.OneAudioPart` | src/db_utils/pg_services.py:114-122 | the audio part, with content type audio/mpeg for `.mp3` in any case and audio/wav otherwise, is the only file part |
| `PodcastUpload.FormData.AddField` | src/db_utils/pg_services.py:117-137 | adding a field appends it to the form |
| `PodcastUpload.AddOptionalField` | src/db_utils/pg_services.py:129-134 | an optional field is appended when its value is not empty, and nothing is appended otherwise |
| `PodcastUpload.AddTagFields` | src/db_utils/pg_services.py:135-137 | the loop appends one `tags` field per tag, in order |
| `PodcastUpload.BuildForm` | src/db_utils/pg_services.py:111-137 | the form built step by step, with one added field per tag, is the specified upload form |
| `PodcastUpload.ContentType` | src/db_utils/pg_services.py:121 | audio/mpeg exactly when the file name is longer than 4 characters and ends with `.mp3` in any case; audio/wav otherwise |
| `PodcastUpload.UploadUrl` | src/db_utils/pg_services.py:109 | the URL is the server URL cut before a run of trailing slashes, so that it does not end in `/`, followed by the endpoint |
| `PodcastUpload.UploadUrlIgnoresTrailingSlashes` | src/db_utils/pg_services.py:109 | any number of trailing slashes on the server URL give the same upload URL |
| `PodcastUpload.ResponseOf` | src/db_utils/pg_services.py:143-148 | the parsed JSON body when the body parses, otherwise a message holding the response text |
| `PodcastUpload.FileResult` | src/db_utils/pg_services.py:139-174 | success exactly when the server answered 200 or 201; a transport exception gives an error result rather than raising, carrying the exception's text and the file name; an answer keeps its status, the file name and the response data built from the body |
| `PodcastUpload.UploadSingleFile` | src/db_utils/pg_services.py:74-174 | a missing file raises not-found; otherwise the result is that of the one POST of the built form to the upload URL |
| `PodcastUpload.SingleUploadSendsOneRequest` | src/db_utils/pg_services.py:104-142 | the result depends on the server only through its answer to that one request, and not at all when the file is missing |
| `PodcastUpload.DirectoryResult` | src/db_utils/pg_services.py:265-297 | the directory result succeeds exactly when the file upload did; a failed upload always gives a failure that keeps the server's status and error data, or status 0 and the exception text after a transport error; a raised error is reported, not propagated, as "Lỗi khi upload <file name>: <message>" |
| `PodcastUpload.UploadAudioDirectory` | src/db_utils/pg_services.py:176-297 | the imperative upload computes the specified directory upload |
| `PodcastUpload.NoAudioMeansNoUpload` | src/db_utils/pg_services.py:207-213 | in an existing directory the result is "no audio file" exactly when no entry is an audio file, and then the server is never asked |
| `PodcastUpload.UploadsFirstAudioFile` | src/db_utils/pg_services.py:215-263 | the file uploaded is the first audio entry in listing order, with its title, tags and description |
| `PodcastUpload.DirectoryUploadSuccess` | src/db_utils/pg_services.py:253-278 | the directory upload succeeds exactly when the chosen file is still there and the server answers its request with 200 or 201; the result then records that file's name, title and tags |

## Left out

- Language-model calls: the intent and question-answering agents and their prompts are function parameters. A
  provider failure, which the chat endpoint does not catch, is not modelled.
- The connection pool, `async`/`await`, the startup hook, FastAPI routing, CORS, pydantic request models and the
  debug prints. Concurrency is not modelled, including the unguarded race between the stock lookup and the insert.
- The database connection settings hard-coded in the chat service are not reproduced.
- Reading the audio file's bytes: the audio part carries the file name and content type only.
- `response.json()` parsing: whether the body parses, and its JSON value, are part of the HTTP outcome given.
- The `filepath` of an uploaded file is the entry's path as given in the listing; path normalisation is not modelled.
- `datetime.now()` and `strftime`: the session's time of day and the two formatted strings are inputs. The date
  and timestamp formats are not modelled, and neither is the gap between the three clock reads.
- Every row gets `created_at` on insert. PostgreSQL sorts NULLs first under `ORDER BY created_at DESC`, so a MARKET
  row with a NULL `created_at` would be returned first; the model has no such rows.
- A NULL `content` column, which the chat would format as "None".
- The `__main__` test harness that generates a sample file with text-to-speech.
- PyText.Lower: maps only ASCII letters. Python's Unicode `lower()` can also matter, e.g. the KELVIN SIGN
  lowercases to `k`, so a stem spelled with it can still count as containing "market".
- PyText.Upper: maps only ASCII letters. Python's Unicode `upper()` also changes other letters and can change the
  length (`ß` becomes `SS`), which affects the 2-to-5 length test on the symbol prefix.
- PodcastUpload.Suffix: follows the rule of Python up to 3.13 (a suffix needs a dot that is neither the first nor the
  last character of the name). Later versions also treat a trailing dot as a suffix. This differs only for names
  ending in `.`, which are never audio files.
- PodcastUpload.UploadSingleFile: the optional `headers` argument is not modelled; the directory upload never passes one.
- Python's `None` and `""` for the optional form values are both the empty string: the code only tests whether
  they are truthy.
