# RK Nature Cure Home chatbot backend, modelled in Dafny

This project models the backend of the RK Nature Cure Home receptionist chatbot and the dashboard that copies its sessions.

- **Prompt building.** `backend/prompt_builder.py` and `ai_clubbed` in `backend/llm_service.py` build one large prompt for a language model. The prompt holds the user query, the content corpus, the template names, an optional chat summary, the known name and phone, and a per-template guidance table. The model's reply is then read back field by field with regular-expression searches.
- **Chat log store.** `backend/database.py` keeps one row per session id in the `chat_logs` table. Each turn is appended to the row's log as "User: … | Bot: …", and the row's summary is regenerated. It also looks content up by id in the SQLite `extracted_data` table.
- **The two `/submit_query` handlers.**
  - `backend/main.py` validates the request. Its helpers pick a name, a content id and an answer. It then logs the turn, regenerates the summary and appends a request for the name and/or number that the summary still marks "Unknown".
  - `backend-rk-main/main.py` is a single-file server. It does the same work with three model calls and a combined "log and summarise" step.
- **Dashboard copy.** `db/` is the dashboard side:
  - `sync_data` copies the sessions the SQLite `chat_sessions` table does not hold yet.
  - It reads each session's name, phone and product out of its summary with `extract_user_info_llm`. That function asks the model for JSON and falls back to the regular expressions of `extract_user_info_regex`.

How the model is built:

- Python text operations are modelled on `string` values in module `Text`: `str.strip` with Python's `isspace` set, `sep.join`, `split`, `int` and `str` on decimals.
- The regular-expression searches are in module `Patterns`. Each search is modelled as "the first position where the prefix is followed by a character of the class". A reference predicate (`IsFirstField`/`NoField`) states what that first match is, so every parser's contract says what `re.search` returns.
- A Python `dict` is an insertion-ordered list of pairs (module `PyDict`). In a comprehension, a later key overwrites an earlier one and keeps the earlier one's place.
- The language model is a function parameter `llm: string -> Completion`. A `Completion` is either the completion text or `Raised`, an exception from the call. `json.loads` is a parameter `parseJson` in the same way.
- The Neon `chat_logs` table and the SQLite `chat_sessions` table are classes holding a `map` from session id to row. Their methods are proved against functions of the old table (`WithLogEntry`, `WithSummary`, `Upserted`), and the properties are lemmas about those functions.
- Both handlers are methods over the chat table whose `ensures` give the whole reply and the whole new table.
  - For `backend-rk-main/main.py` that result is the function `RkMain.Turn`.
  - The rk handler's exceptions are modelled. An exception from the name, id or summary call escapes as a server error (`ServerError`). When it comes from the summary call, the turn has already been logged. The reply call catches its own exception and answers with an apology.

Some behaviours of the code that the model keeps as written:

- `get_content_by_id(matched_id) if matched_id else ""` treats content id 0 like "no match" (`BackendMain.ContentFor`).
- In `process_query`, the summary is read back after `log_chat` has written the row. So on a first turn, `generate_summary` is handed "" and never `None` (`BackendMain.SummaryBeforeUpdate`).
- In `ai_clubbed`, a `Name:` line whose value strips to "Unknown" is read as no name. The regex `$` also matches before a final line feed, so a summary with no "Response:" after it runs to the end of the text, less a final line feed.

## Model

| member | source | states |
|---|---|---|
| Text.Strip | backend-rk-main/main.py:131 | `.strip()` gives text with no leading or trailing white space, no longer than the input, made of its characters, and empty exactly when the input is all white space |
| Text.StripIsSlice | backend-rk-main/main.py:131 | `.strip()` returns a slice of the input with only white space before and after it, so only white space at the two ends is removed |
| Text.JoinContainsPart | backend-rk-main/main.py:115 | every part of `sep.join(parts)` occurs in the joined text |
| Text.SplitJoin | backend/prompt_builder.py:40 | joining lines that hold no line feed with "\n" and splitting at "\n" gives the lines back |
| Text.ParseNatToDecimal | backend-rk-main/main.py:117-118 | `int` of the decimal rendering of a number is that number |
| Text.StripDropsTrailingSpace | backend/llm_service.py:176 | stripping ignores one more trailing white-space character |
| Patterns.FindField | backend/llm_service.py:164 | the search returns a position where the prefix is followed by a class character and no such position comes earlier, or reports that there is none |
| Patterns.GreedyCapture | backend/llm_service.py:164-170 | the `(prefix)(class+)` group of `re.search` is absent exactly when no position matches; otherwise it is the longest run of class characters after the first match |
| Patterns.TakeWhileStops | backend-rk-main/main.py:117 | a greedy run over class characters stops at the first character outside the class |
| PyDict.FromPairs | backend/database.py:68 | a dict comprehension's keys are unique and are exactly the keys of its pairs |
| PyDict.FromPairsLastWins | backend/database.py:68 | the value a dict comprehension keeps for a key is that key's last value in the input |
| PyDict.GetPut | backend/database.py:68 | looking a key up after an insertion finds the new value for that key and the old result for any other |
| PromptBuilder.AssembleOpening | backend/prompt_builder.py:22-48 | the prompt opens with "Chat history summary: <summary>" and then the query line exactly when the summary is truthy; otherwise it opens with the query line |
| PromptBuilder.AssembleClosing | backend/prompt_builder.py:66-71 | the prompt always ends with the reply format (Name, Phone, Template, Summary, Response lines) |
| PromptBuilder.AssembleContentPrefix | backend/prompt_builder.py:22-50 | the prompt starts with the context, the query line and the content block, in that order |
| PromptBuilder.AssembleListsContent | backend/prompt_builder.py:22-50 | the prompt starts with the context, the query line, "AVAILABLE CONTENT:\n", the entries "Content ID <id>:\n<content>" in corpus order joined by line feeds, and a blank line; so every corpus entry appears in it |
| PromptBuilder.AssembleChoicesBlock | backend/prompt_builder.py:58 | Task 3, with its list of template names, is part of the prompt |
| PromptBuilder.AssembleOffersChoices | backend/prompt_builder.py:58 | Task 3 offers the template names as one list joined by ", " between its lead and its trailer, so every choice appears in the prompt |
| PromptBuilder.AssembleGuidanceBlock | backend/prompt_builder.py:37-64 | Task 5 carries the whole guidance block between its lead and a blank line |
| PromptBuilder.AssembleShowsGuidance | backend/prompt_builder.py:37-64 | the guidance block (one "- <template>: <guidance>" line per entry, in table order, by `GuidanceBlockLines`) sits in the prompt after its lead and before a blank line, so every entry appears in it |
| PromptBuilder.AssembleShowsKnownDetails | backend/prompt_builder.py:52-56 | the known name and phone are in the prompt, and an absent name is rendered "None" |
| PromptBuilder.AssembleQuotesQuery | backend/prompt_builder.py:28-48 | the query is quoted both in the opening line and in the receptionist instructions |
| PromptBuilder.BuildPrompt | backend/prompt_builder.py:3-74 | the prompt opens with the summary context exactly when the summary is truthy, quotes the query, offers the template names as one ", "-joined list, and ends with the reply format |
| PromptBuilder.GuidanceBlockLines | backend/prompt_builder.py:40 | with no line feed in names or texts, the guidance block has exactly one line per table entry, in table order |
| PromptBuilder.TemplateGuidance | backend/prompt_builder.py:83-125 | the guidance table has 40 entries |
| PromptBuilder.TemplateGuidanceKeysUnique | backend/prompt_builder.py:83-125 | the 40 template names are distinct, so the dict keeps all 40 |
| PromptBuilder.TemplateGuidanceGeneral | backend/prompt_builder.py:123-124 | "General" maps to the live (uncommented) text, and "Unknown" is a template |
| PromptBuilder.TemplateNamesDistinct | backend/prompt_builder.py:84-124 | no template name is listed twice |
| LlmService.ClubbedGuidance | backend/llm_service.py:41-121 | the table inside `ai_clubbed` has 40 entries |
| LlmService.ClubbedGuidanceShape | backend/llm_service.py:41-121 | that table has the same keys as `get_template_guidance` and differs from it only in the text for "General" |
| LlmService.ClubbedPrompt | backend/llm_service.py:24-158 | the clubbed prompt opens with the summary context exactly when the summary is truthy, quotes the query, offers the template names as one ", "-joined list, and ends with the reply format |
| LlmService.ClubbedPromptOpening | backend/llm_service.py:24-26 | the clubbed prompt opens with the summary context exactly when the summary is truthy; otherwise it opens with the query line |
| LlmService.FromSentinel | backend/llm_service.py:166 | "Unknown" reads as absent; anything else is kept |
| LlmService.ParseDetail | backend/llm_service.py:164-170 | name and phone are the stripped rest of the line after the first "Name: " / "Phone: "; absent when there is none or it is "Unknown"; present values are trimmed, never "Unknown" and never span lines |
| LlmService.ParseTemplate | backend/llm_service.py:172-173 | the template is the stripped rest of the first "Template: " line; "General" when there is none |
| LlmService.NextStop | backend/llm_service.py:175 | the lazy summary capture stops at the first later position where the lookahead for "Response:" or the end of the text holds |
| LlmService.ParseSummary | backend/llm_service.py:175-176 | the summary is trimmed, and "" when there is no "Summary: " followed by a character |
| LlmService.SummaryUpToResponse | backend/llm_service.py:175-176 | the summary is the stripped text between the first "Summary: " and the next "Response:" |
| LlmService.SummaryToEnd | backend/llm_service.py:175-176 | with no later "Response:", the summary is the stripped rest of the text |
| LlmService.SummaryAtFirstField | backend/llm_service.py:175-176 | the summary capture starts at the first "Summary: " |
| LlmService.StopAtEnd | backend/llm_service.py:175 | with no later "Response:", the lookahead holds only at the end or before a final line feed |
| LlmService.StripToLineEnd | backend/llm_service.py:175-176 | stopping before a final line feed strips to the same summary as running to the end |
| LlmService.ParseResponse | backend/llm_service.py:178-179 | the reply is the stripped text after the first "Response: "; the fixed fallback reply when there is none |
| LlmService.ParseCompletion | backend/llm_service.py:164-183 | the name and phone are `ParseDetail` of the text after "Name: " and "Phone: ", the summary is `ParseSummary` and the reply `ParseResponse` of the text; so name and phone are never "Unknown" and never span lines, and the summary is trimmed |
| LlmService.AiClubbed | backend/llm_service.py:161-183 | the call fails exactly when the model call on the clubbed prompt raises; a completed call returns `ParseCompletion` of its text |
| InfoExtractor.KnownIsStripOrUnknown | db/info_extractor.py:35-45 | a detail is the stripped capture, or "Unknown" without a match; a capture stripping to "Unknown" gives the same as no match |
| InfoExtractor.ProductCapture | db/info_extractor.py:43 | the product capture is absent exactly when no "Interested in: " is followed by a non-line-feed character; otherwise it is that character and the run up to the next '.' or line feed |
| InfoExtractor.ProductRun | db/info_extractor.py:43 | the lazy product group is its first character and the following run free of '.' and line feeds |
| InfoExtractor.RegexDetail | db/info_extractor.py:35-41 | name and phone are the stripped run up to the next comma after the first prefix, "Unknown" without a match, and never hold a comma |
| InfoExtractor.RegexProduct | db/info_extractor.py:43-45 | the product is the stripped lazy capture, "Unknown" without a match, and never spans lines |
| InfoExtractor.ExtractUserInfoRegex | db/info_extractor.py:30-47 | the name and phone are `RegexDetail` after "User: " and "Phone: ", the product is `RegexProduct`; a summary with none of the three fields gives ("Unknown", "Unknown", "Unknown"); name and phone hold no comma, product no line feed |
| InfoExtractor.BraceBlock | db/info_extractor.py:20-22 | the `{.*}` block is absent exactly when no '{' has a '}' after it; otherwise it is the slice of the text from its first '{' to its last '}' |
| InfoExtractor.GetOrUnknown | db/info_extractor.py:24 | `data.get(key, "Unknown")` |
| InfoExtractor.FromCompletion | db/info_extractor.py:18-28 | a raised call, a completion with no block, or malformed JSON falls back to the regex extraction; otherwise each of "name", "phone" and "product" is the parsed value when the key is present and "Unknown" when it is missing |
| InfoExtractor.ExtractUserInfoLlm | db/info_extractor.py:5-28 | a raised model call, a completion with no `{...}` block, or a block the JSON reader rejects gives the regex extraction; a parsed object gives its "name", "phone" and "product" values, "Unknown" for a missing key |
| ChatStore.WithLogEntry | backend/database.py:19-37 | after logging, the session has a row and every other row is unchanged |
| ChatStore.WithSummary | backend/database.py:41-49 | updating a summary keeps the keys and every log, and changes no other session |
| ChatStore.LogIsAppendOnly | backend/database.py:26-37 | an existing log gets a spaced vertical bar and the entry appended, keeping the old log as a prefix and the summary as it was; a new session's row is (entry, "") |
| ChatStore.SummaryReplaced | backend/database.py:41-49 | the session's summary is replaced and its log kept; an unknown session leaves the table as it was |
| ChatStore.LogAll | backend/database.py:19-37 | logging one or more entries leaves a row for the session |
| ChatStore.LogAllJoins | backend/database.py:26-37 | from no row, the log after several turns is the entries joined by spaced vertical bars, with the summary still "" |
| ChatStore.ChatLogs.LogChat | backend/database.py:19-39 | the table becomes `WithLogEntry` of the old table |
| ChatStore.ChatLogs.UpdateSummary | backend/database.py:41-49 | the table becomes `WithSummary` of the old table |
| ChatStore.ChatLogs.GetChatData | backend/database.py:51-59 | returns the session's row exactly when it exists, and None otherwise |
| ChatStore.RecordPairs | backend/database.py:68 | one (id, {keyword, content}) pair per fetched record, in order |
| ChatStore.FetchKeywordsData | backend/database.py:62-68 | the dict's keys are unique and are exactly the record ids |
| ChatStore.FetchKeywordsDataLastWins | backend/database.py:68 | an id maps to the keyword and content of the last record with that id, and is missing exactly when no record has it |
| ChatStore.LastValueOfPairs | backend/database.py:68 | the last pair value for an id is the last record with that id |
| ChatStore.GetContentById | backend/database.py:70-72 | the content of the last record with the id, or "" when there is none |
| BackendMain.Validate | backend/main.py:24-27 | "Missing Query!" exactly when the query is absent or empty; otherwise "Missing SessionId!" exactly when the session id is; otherwise both values are passed on |
| BackendMain.ContentFor | backend/main.py:40 | "" for no id or for id 0; otherwise the content stored under the id, or "" if there is none |
| BackendMain.LogEntry | backend/main.py:46 | the entry starts with "User: <query>", has a spaced vertical bar and "Bot: " right after the query, and ends with the answer |
| BackendMain.MissingInfoSuffix | backend/main.py:60-65 | the requested suffix for each of the four combinations of "User: Unknown" and "Phone: Unknown" in the summary |
| BackendMain.SuffixAsksForWhatIsMissing | backend/main.py:60-65 | the suffix asks for the name when the summary lacks the user, and for the number when it lacks the phone; it is empty exactly when neither is marked unknown |
| BackendMain.AsksFor | backend/main.py:61-65 | a request worded around the wanted details asks for each of them |
| BackendMain.SummaryBeforeUpdate | backend/main.py:47-51 | the summary handed to the summariser is "" for a new session, and the stored one otherwise |
| BackendMain.ProcessQuery | backend/main.py:34-67 | the new table is the turn logged and then the summary replaced; the reply is the answer plus the missing-details request, with the session id echoed |
| BackendMain.SubmitQuery | backend/main.py:17-32 | an invalid request gets its 400 error and leaves the table alone; a valid one behaves as `process_query` |
| RkMain.NameFromCompletion | backend-rk-main/main.py:131-132 | fails exactly when the call raises; otherwise the name is the stripped completion, absent exactly when that is "Unknown" |
| RkMain.ExtractNameFromQuery | backend-rk-main/main.py:126-132 | fails exactly when the model call raises; otherwise the name is the stripped completion, absent exactly when that is "Unknown", and trimmed |
| RkMain.KeywordOptions | backend-rk-main/main.py:114 | one "ID: <id> - Keyword: <keyword>" option per stored id, in dict order |
| RkMain.KeywordPromptOffers | backend-rk-main/main.py:114-115 | every stored keyword is offered in the prompt under its id |
| RkMain.KeywordId | backend-rk-main/main.py:117-118 | the id is the first "ID: <digits>" in the reply, kept only when it is a stored id; none without a match |
| RkMain.KeywordIdRoundTrip | backend-rk-main/main.py:117-118 | a reply naming a stored id, not followed by another digit, yields that id |
| RkMain.KeywordFromCompletion | backend-rk-main/main.py:116-118 | fails exactly when the call raises; a completed call gives `KeywordId` of the stripped reply, so a returned id is a stored id and a reply with no "ID: <digit>" yields none |
| RkMain.MatchQueryToKeyword | backend-rk-main/main.py:112-118 | fails exactly when the model call raises; a completed call gives `KeywordId` of the stripped reply over the fetched dict, so a returned id is the id of a stored record and a reply with no "ID: <digit>" gives no id |
| RkMain.Greeting | backend-rk-main/main.py:136 | "Hi <name>!" for a truthy name other than "Unknown", else "Hello!" |
| RkMain.ReplyFromCompletion | backend-rk-main/main.py:144-149 | the stripped completion, or the greeting and the apology when the call raises |
| RkMain.GenerateRepresentativeResponse | backend-rk-main/main.py:135-149 | never fails: the stripped completion, or the greeting and the apology when the call raises |
| RkMain.SummaryPrompt | backend-rk-main/main.py:70-87 | uses the update wording exactly when the existing summary is truthy; always quotes the new entry |
| RkMain.StoredSummary | backend-rk-main/main.py:48-57 | the summary read before logging: absent exactly when the session has no row |
| RkMain.UpdateWordingChosen | backend-rk-main/main.py:55-71 | the update wording is used exactly when the session has a row with a non-empty summary |
| RkMain.LogChatAndUpdateSummary | backend-rk-main/main.py:45-99 | the turn is always logged; if the model returns, the stripped summary is stored and returned; if it raises, the summary is left alone and the exception propagates |
| RkMain.RequestOf | backend-rk-main/main.py:154-156 | a missing body reads as both values absent |
| RkMain.InitialAnswer | backend-rk-main/main.py:167-171 | fails exactly when the name call raises, or it returns and the keyword call raises; otherwise the answer is the stripped reply completion, or the greeting and apology when the reply call raises |
| RkMain.Turn | backend-rk-main/main.py:165-190 | a failed answer step leaves the table alone with a server error; with an answer, a raised summary call gives a server error after the turn is logged, and a returned one gives the answer plus the missing-details request for the stripped summary, with the session id echoed |
| RkMain.TurnAsksForMissingDetails | backend-rk-main/main.py:177-190 | when the summary call returns, the reply asks for the name if the summary marks the user unknown, for the number if it marks the phone unknown, and is the bare answer exactly when it marks neither |
| RkMain.TurnStoresTurn | backend-rk-main/main.py:173-175 | the turn is appended to the session's log (or becomes a new row); the summary changes only if the summary call returned; every other session is untouched |
| RkMain.ComposeAnswer | backend-rk-main/main.py:167-171 | the name, id and reply steps in order give `InitialAnswer`: a raised name or id call fails, the reply step never does |
| RkMain.LogAndReply | backend-rk-main/main.py:173-190 | the reply and new table are those of `Turn` |
| RkMain.SubmitQuery | backend-rk-main/main.py:152-190 | an invalid request gets its 400 error and leaves the table alone; a valid one gets the reply and table of `Turn` on the composed answer |
| SessionStore.RowFor | db/sqlite_db.py:37-47 | the row keeps the session's log and summary and stores the extracted name, phone and product |
| SessionStore.Upserted | db/sqlite_db.py:36-47 | the ids afterwards are the old ids plus every written session's id |
| SessionStore.UpsertedRow | db/sqlite_db.py:43-47 | each written id holds the row of the last session with that id; other rows are unchanged |
| SessionStore.UpsertedAppend | db/sqlite_db.py:36-47 | writing two batches in turn is the same as writing them as one |
| SessionStore.SqliteDb.constructor | db/sqlite_db.py:5-22 | a fresh database has no table and no rows |
| SessionStore.SqliteDb.InitSqliteDb | db/sqlite_db.py:5-22 | afterwards the table exists and its rows are unchanged |
| SessionStore.SqliteDb.GetExistingSessionIds | db/sqlite_db.py:24-30 | returns exactly the stored ids, each once |
| SessionStore.SqliteDb.UpdateSqliteWithSessions | db/sqlite_db.py:32-50 | the rows become `Upserted` of the old rows over the sessions in order |
| App.NewSessions | db/app.py:14 | keeps exactly the fetched sessions whose id is not stored |
| App.NewSessionsAppend | db/app.py:14 | the filter keeps the fetched order |
| App.SyncedRows | db/app.py:9-19 | a sync leaves every stored row as it was, and every fetched id is present afterwards |
| App.NoLastWithId | db/app.py:14 | a filtered session never carries a stored id |
| App.LlmExtractor | db/app.py:17 | the extractor handed to the upsert is `extract_user_info_llm` on every summary; it reads a summary with the regexes whenever its model call raises or its completion holds no `{...}` block |
| App.SyncData | db/app.py:9-19 | the table exists afterwards; the count is the number of new sessions; the rows are the old rows with the new sessions upserted through `extract_user_info_llm` |

## Left out

- The language model is a deterministic function `llm` from prompt to completion or exception. Its nondeterminism, latency and the difference between `llm.invoke(...).content` and `llm.complete(...).text` are not modelled.
- `json.loads` is the parameter `parseJson`. It returns either a parse error or an object whose values are strings; JSON values of other types are not modelled.
- `\d` is modelled as the ASCII digits 0-9. Python also accepts other Unicode decimal digits.
- Connections, `await`/`asyncio.run`, `finally: conn.close()`, commits, logging and `print` are plumbing with no effect on the rows or replies, so they are not modelled.
- Concurrent requests against the same session are not modelled. Each method runs alone on the table.
- The `last_updated` timestamp of `chat_sessions` is not modelled, because it depends on the clock.
- `fetch_neon_sessions` (db/neon_db.py) is the input sequence `fetched` of `App.SyncData`. `fetch_data`/`fetch_keywords_data` read the content table, which is given as the input `records`.
- The Flask layer is a `Reply` datatype, with `BadRequest` for status 400 and `ServerError` for an uncaught exception. `jsonify`, CORS and `app.run` are not modelled.
- The Streamlit dashboard (`main` in db/app.py), `display_sqlite_data`, the frontend and the configuration files are not part of this model.
- backend/main.py: `data.get(...)` raises on any body that is not a JSON object, including `null`, so only object bodies are modelled (`BackendMain.SubmitQuery` takes the two values). backend-rk-main/main.py reads a falsy body as both values absent (`RkMain.RequestOf`) and raises only on a truthy non-object.
- backend/main.py:8 imports `match_query_to_keyword`, `extract_name`, `generate_response` and `generate_summary` from llm_service.py, which defines none of them. `BackendMain.ProcessQuery` and `BackendMain.SubmitQuery` take them as function parameters. Their exceptions are therefore not modelled for this handler.
- PromptBuilder.BuildPrompt, LlmService.ClubbedPrompt, LlmService.AiClubbed: the fixed wording is a `Wording` parameter, so the layout properties hold for any wording.
- PromptBuilder.BackendPrompt: the prompt `build_prompt` sends, `BuildPrompt` applied to `PromptBuilder.SourceWording`, the backend's own text. It has no contract of its own; what holds of it is what `BuildPrompt` states for every wording. Reasoning about the literal characters of that wording exceeds the verifier's resource budget, so it is not done.
- LlmService.ParseResponse: the fallback reply is not claimed to be trimmed; only the parsed case is stripped.
- LlmService.ParseCompletion: the template is parsed (`LlmService.ParseTemplate`) but `ai_clubbed` only logs it, so it is not part of the result.
- RkMain.LogChatAndUpdateSummary: the log update reuses `ChatStore.ChatLogs.LogChat`, whose code is the same as backend-rk-main/main.py:55-68.
- InfoExtractor.FromCompletion, InfoExtractor.ExtractUserInfoLlm: a JSON object whose values are not all strings is outside the model; `parseJson` returns either `Malformed` or an object with string values.
- SessionStore.SqliteDb.UpdateSqliteWithSessions: the extractor is a pure function of the summary, so the order and number of extractor calls are not modelled.
- No code keeps a session's name or phone or merges them with values from earlier turns, so no such merge is modelled.
