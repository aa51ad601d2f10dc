# MailMemGPT email agent core, in Dafny

This project models the decision and memory core of MailMemGPT, an email
assistant that answers incoming mail with a language model. For each email the
agent does the following:

- It classifies the email as `ignore`, `notify` or `respond`. The triage manager
  scores the email against pools of few-shot examples. It falls back to a model
  call when every pool scores zero or the best score is below the threshold.
- It acknowledges an ignored or notified email with a fixed answer and one
  history row.
- It answers a `respond` email with the generation loop of `_generate_response`.
  The loop builds a system prompt from the history, the summary, the rules and
  the memory recalled from the vector store. It runs tool calls, detects
  repeated calls, guards the prompt size, and finally stores the reply in the
  history window, the SQL history and the vector store.

Around the agent are:

- a versioned, append-only rules table (`email_rules_manager.py`);
- the prompt optimizer that rewrites those rules (`email_prompt_optimizer.py`);
- the session history with its summaries (`email_history_manager.py`);
- the system-prompt templates (`prepare_system_prompt.py`);
- the three stub tools (`email_tools.py`).

Modules:

- `Wrappers`: `Option` and `Result`.
- `Mail`: the email record and a JSON value.
- `Strings`: the Python string builtins the core relies on, such as `strip`,
  ASCII `lower`, `split`, `in` and `int(str(n))`.
- `Rules`: the rules table as a sequence of rows and `EmailRulesManager` as a
  class over it.
- `Optimizer`: `EmailPromptOptimizer` and its rule updates.
- `History`: `EmailHistoryManager`, which holds its in-memory window, its
  counter and both SQL tables as fields.
- `SystemPrompt`: the two prompt builders.
- `EmailTools`: the stub tools.
- `Triage`: `EmailTriageManager` and the classification decision.
- `Memory`: memory recall, deduplication, the token check and summarising.
- `Generation`: the `_generate_response` loop, as a state machine `Run`, and the
  method `GenerationLoop` proved equal to it.
- `GenerationProps`: the properties of that loop.
- `Agent`: `EmailAgent.ProcessEmail` and its steps.

The language model, the vector store, the token counter, uuid generation,
`.2f` formatting and `str()` of the history are parameters ("oracles"). The
model's replies to the generation loop are a sequence: the loop's `i`-th
model call receives its `i`-th element.

The docstring of `classify_email` (`email_triage_manager.py:86-88`) calls the
confidence a "Similarity score (0-1)". The code does not clamp it, so a
distance above 1 yields a negative confidence that `classify_email` passes on
unchanged (`Triage.ConfidenceCanBeNegative`). The model follows the code.
`Triage.ConfidenceBounded` shows the range holds whenever every pool score
lies in [0, 1].

Error texts that reach the model are Python's own. They follow CPython 3.11 and
3.12: an unbound local raises UnboundLocalError "cannot access local variable
'x' where it is not associated with a value", and a binding error names the
method by its qualified name, as in "EmailTools.write_email_tool() missing 1
required positional argument: 'content'".

The `email_history` table is declared with `email_id TEXT UNIQUE NOT NULL` and
`response_text TEXT NOT NULL` (`prepare_sqldb.py:85-98`). The model assumes
that SQLite rejects an insert that breaks either constraint by raising. It
models where `_generate_response` and `process_email` catch that exception.

## Model

| member | source | states |
|---|---|---|
| Rules.DefaultRules | src/utils/email_rules_manager.py:124-140 | each of the four standard types reads as one of the four built-in texts; any other type reads as '' |
| Rules.BuiltInDefaultsNonEmpty | src/utils/email_rules_manager.py:124-140 | a default text is non-empty exactly for the standard types |
| Rules.MaxVersion | src/utils/email_rules_manager.py:105-122 | `MAX(version)` over the user's rows of a type is never negative (`COALESCE(..., 0)`) |
| Rules.MaxVersionIsMax | src/utils/email_rules_manager.py:105-122 | the maximum bounds every matching row's version and, when positive, is the version of some matching row |
| Rules.LatestRow | src/utils/email_rules_manager.py:15-38 | the row `get_rules` reads is a matching row of the table, and there is none exactly when no row matches |
| Rules.LatestRowHasMaxVersion | src/utils/email_rules_manager.py:15-38 | under the table invariant, `ORDER BY version DESC LIMIT 1` picks the unique row that carries the maximum version |
| Rules.UnfoldLast | src/utils/email_rules_manager.py:15-38 | the latest row and the maximum version of a table, in terms of its last row and the rows before it |
| Rules.PrefixValid | src/utils/email_rules_manager.py:40-70 | dropping the last row keeps the version invariant |
| Rules.LastIsNewest | src/utils/email_rules_manager.py:40-70 | in a valid table, a matching last row has a positive version above every earlier matching row's |
| Rules.LatestRowsOfUser | src/utils/email_rules_manager.py:72-103 | the `GROUP BY rule_type` query returns exactly the user's rows that carry their type's maximum version |
| Rules.Filter | src/utils/email_rules_manager.py:79-91 | the rows kept by the query are exactly the highest-version rows of the user |
| Rules.TypeAmongStep | src/utils/email_rules_manager.py:93-95 | a type is among the first k+1 result rows iff it is among the first k or is row k's type |
| Rules.NoRowReadsDefault | src/utils/email_rules_manager.py:34-38 | a type without rows reads as its default text |
| Rules.ResultIsLatest | src/utils/email_rules_manager.py:72-103 | each row of the GROUP BY result is the current rule text of its type |
| Rules.PresentTypes | src/utils/email_rules_manager.py:72-103 | the types in the result are exactly the types the user has rows for |
| Rules.UpdateThenGet | src/utils/email_rules_manager.py:40-70 | after an update, `get_rules(t)` returns the new content and `get_rule_version(t)` the new version; other types read as before |
| Rules.AppendNextVersionValid | src/utils/email_rules_manager.py:40-70 | appending version MAX+1 keeps versions strictly increasing per (type, user) |
| Rules.UpdateWithoutUser | src/utils/email_rules_manager.py:40-70 | without a user every update gets version 1 and is never read back (`user_id = NULL` matches nothing) |
| Rules.EmailRulesManager.constructor | src/utils/email_rules_manager.py:11-13 | the manager starts over the stored table with its user and the built-in defaults |
| Rules.EmailRulesManager.GetRules | src/utils/email_rules_manager.py:15-38 | the latest row's content when the user has a row of that type, else the default text |
| Rules.EmailRulesManager.GetRuleVersion | src/utils/email_rules_manager.py:105-122 | the highest version of the type (0 when none), attained by some row |
| Rules.EmailRulesManager.UpdateRules | src/utils/email_rules_manager.py:40-70 | appends exactly one row with version MAX+1, returns that version and keeps the table invariant |
| Rules.EmailRulesManager.GetAllRules | src/utils/email_rules_manager.py:72-103 | the keys are the standard types plus every type the user has rows for; each value is that type's current rule |
| Rules.EmailRulesManager.CollectLatest | src/utils/email_rules_manager.py:93-95 | the loop over the query result maps each present type to its current rule |
| Rules.EmailRulesManager.FillDefaults | src/utils/email_rules_manager.py:97-101 | adds the missing standard types with their defaults and leaves the other entries alone |
| Optimizer.RulesListing | src/utils/email_prompt_optimizer.py:40-49 | one `(type, current rule)` pair for each type asked about, in order |
| Optimizer.RulesMap | src/utils/email_prompt_optimizer.py:139-145 | the current rule of each type asked about, keyed by type |
| Optimizer.Whitelisted | src/utils/email_prompt_optimizer.py:96-105 | the reply items with a standard type, drawn from the reply |
| Optimizer.OnlyWhitelistedApplied | src/utils/email_prompt_optimizer.py:96-105 | applying a reply is the same as applying only its standard-type items: no other type is ever written |
| Optimizer.UpdatesAppendOnly | src/utils/email_prompt_optimizer.py:96-105 | applying a reply only appends rows to the table |
| Optimizer.AppliedExtends | src/utils/email_prompt_optimizer.py:96-105 | the table after a reply extends the table before it by at most one row per item |
| Optimizer.AppliedRowsAreRules | src/utils/email_prompt_optimizer.py:96-105 | every appended row has a standard type and the user's id |
| Optimizer.RecordedNames | src/utils/email_prompt_optimizer.py:96-105 | the names recorded in the result are standard types |
| Optimizer.RecordedKeys | src/utils/email_prompt_optimizer.py:96-105 | the result holds exactly the standard types of the reply |
| Optimizer.RecordStep | src/utils/email_prompt_optimizer.py:98-104 | after one item, every recorded `(content, version)` is still the current rule of its type |
| Optimizer.WriteKeepsRecordsCurrent | src/utils/email_prompt_optimizer.py:98-104 | writing one type makes it current at the new version and leaves the other recorded types current |
| Optimizer.RecordedIsCurrent | src/utils/email_prompt_optimizer.py:96-105 | for a manager with a user, the returned map names for each updated type the content and version `get_rules`/`get_rule_version` now return |
| Optimizer.EmailPromptOptimizer.constructor | src/utils/email_prompt_optimizer.py:15-18 | the optimizer works on the given rules manager |
| Optimizer.EmailPromptOptimizer.OptimizeRules | src/utils/email_prompt_optimizer.py:20-109 | the model sees the current rules (all four standard types by default); a failed reply writes nothing and returns {}; otherwise the reply is applied item by item |
| Optimizer.EmailPromptOptimizer.ListRules | src/utils/email_prompt_optimizer.py:40-49 | the listing loop builds the listing of the rules asked about |
| Optimizer.EmailPromptOptimizer.ApplyReply | src/utils/email_prompt_optimizer.py:96-105 | the update loop leaves the table and the result as the item-by-item application of the reply describes |
| Optimizer.EmailPromptOptimizer.OptimizeSingleRule | src/utils/email_prompt_optimizer.py:111-127 | `optimize_rules` for that one type with its current text |
| Optimizer.EmailPromptOptimizer.GetOptimizationSuggestions | src/utils/email_prompt_optimizer.py:129-182 | the model's parsed answer to the current rules, or {} on failure; no row is written |
| History.SliceFrom | src/utils/email_history_manager.py:33-34 | Python's `xs[k:]` for a negative or non-negative k: a suffix of the stated length |
| History.SliceToNegative | src/utils/email_history_manager.py:179-180 | Python's `xs[:k]` for negative k: a prefix of the stated length |
| History.TrimKeepsLatest | src/utils/email_history_manager.py:33-34 | trimming keeps exactly the newest `2*max_history_pairs` entries, in order |
| History.Trim | src/utils/email_history_manager.py:33-34 | the window is a suffix of the input; at most `2*max` entries are left untouched, and with `max >= 1` a longer window keeps exactly `2*max` |
| History.TrimZeroKeepsAll | src/utils/email_history_manager.py:33-34 | with `max_history_pairs == 0` the slice `[-0:]` keeps the whole window |
| History.AsSummary | src/utils/email_history_manager.py:197-211 | a parsed summary is accepted only as an object or a list of objects that all carry 'email' and 'response' |
| History.ObjectEntries | src/utils/email_history_manager.py:203-208 | one entry per JSON object, in order |
| History.Summarized | src/utils/email_history_manager.py:175-214 | an unaccepted summary leaves the window as it is; the last pair always survives |
| History.SummarizedKeepsLastPair | src/utils/email_history_manager.py:175-214 | summarising keeps a window of at most one pair, or one whose summary did not parse; otherwise the window becomes the summary followed by the last pair |
| History.NextHistory | src/utils/email_history_manager.py:25-51 | with `max >= 1` the window holds at most `max` pairs, or is an accepted summary followed by the last pair |
| History.WithPair | src/utils/email_history_manager.py:30-31 | the window with the email and the response appended |
| History.AddToHistoryEndsWithPair | src/utils/email_history_manager.py:25-51 | with at least one pair allowed, the window always ends with the new email and response; within the token budget it is exactly the trimmed window |
| History.SessionPairs | src/utils/email_history_manager.py:78-90 | exactly the `(email_body, response_text)` pairs of the rows whose session matches, at most one per row |
| History.Reverse | src/utils/email_history_manager.py:78-90 | `ORDER BY timestamp DESC` over rows kept in insertion order: element k is the input's element from the end |
| History.Limit | src/utils/email_history_manager.py:78-90 | `LIMIT n`: a prefix of length min(n, count) |
| History.SessionSummaries | src/utils/email_history_manager.py:92-103 | exactly the summary texts of the rows whose session matches, at most one per row |
| History.SummaryPromptFramed | src/utils/email_history_manager.py:152-163 | the summary prompt starts with the request to summarise and ends with the instruction to keep the important details |
| History.PairBlocksSnoc | src/utils/email_history_manager.py:160-161 | the prompt loop's text for one more pair is the previous text followed by that pair's block |
| History.PairBlocksSplit | src/utils/email_history_manager.py:160-161 | the pair blocks of a sequence split at any index |
| History.BlockQuoted | src/utils/email_history_manager.py:152-163 | each pair's block occurs in the prompt at its position |
| History.SummaryPromptQuotesPairs | src/utils/email_history_manager.py:152-163 | the summary prompt quotes every pair, in order, right after the blocks of the pairs before it |
| History.SummaryPromptQuotesPrevious | src/utils/email_history_manager.py:152-163 | a non-empty previous summary is quoted in its block right after the request to summarise |
| History.SummaryUpdate | src/utils/email_history_manager.py:119-140 | the summary table gains at most one row and loses none; a new row belongs to the truthy user and the session, and comes with the counter reset to 0; otherwise the counter is unchanged or reset |
| History.SummaryNeedsHistory | src/utils/email_history_manager.py:119-140 | the summary update changes the table or counter only when `max >= 1`, the counter reached `max` and the session holds more than `max` rows, and then resets the counter to 0; in that case a truthy user with a non-empty model answer gets exactly that summary row |
| History.LatestPairsAreNewestInOrder | src/utils/email_history_manager.py:78-90 | `get_latest_email_pairs(n)` is the last min(2n, count) pairs of the session, in chronological order, and all of them for a negative n |
| History.EmailHistoryManager.constructor | src/utils/email_history_manager.py:14-23 | an empty window and counter, over the stored tables |
| History.EmailHistoryManager.Inserted | src/utils/email_history_manager.py:53-76 | at most one row; one exactly when there is a user and the database accepts it, carrying the response, the session and the body under an id not yet stored |
| History.EmailHistoryManager.InsertedKeepsTableConstraints | src/prepare_sqldb.py:85-98 | the table never gains a NULL response or a repeated email id |
| History.EmailHistoryManager.SaveToDb | src/utils/email_history_manager.py:53-76 | raises exactly when there is a user and the row is rejected; the table gains the inserted row; nothing else changes |
| History.EmailHistoryManager.AddToHistory | src/utils/email_history_manager.py:25-51 | the window is trimmed (and, over budget, summarised); when the save raises, the method stops after the trim: no count and no summary; otherwise the counter grows by one |
| History.EmailHistoryManager.SummarizeEmailHistory | src/utils/email_history_manager.py:175-214 | the window becomes its summarised form; the tables and counter are unchanged |
| History.EmailHistoryManager.GetLatestEmailPairs | src/utils/email_history_manager.py:78-90 | the newest min(2n, count) pairs of the session, oldest first, and all of them for a negative n (SQLite's `LIMIT` with a negative value) |
| History.EmailHistoryManager.GetLatestSummary | src/utils/email_history_manager.py:92-103 | the session's most recent summary, none when there is none |
| History.EmailHistoryManager.SaveSummaryToDb | src/utils/email_history_manager.py:105-117 | one summary row for a truthy user and non-empty text, none otherwise |
| History.EmailHistoryManager.GenerateTheNewSummary | src/utils/email_history_manager.py:142-173 | no pairs gives none; otherwise the model's answer to the summary prompt |
| History.EmailHistoryManager.AppendPairBlocks | src/utils/email_history_manager.py:160-161 | the prompt loop appends the blocks of every pair in order |
| History.EmailHistoryManager.UpdateEmailSummary | src/utils/email_history_manager.py:119-140 | the summary table and counter become the summary update of the old state (see `SummaryNeedsHistory`); the window and the history table are unchanged |
| SystemPrompt.PrepareSystemPromptForRagChatbot | src/utils/prepare_system_prompt.py:1-11 | a fixed non-empty instruction text |
| SystemPrompt.OrDefault | src/utils/prepare_system_prompt.py:91-98 | `value or default`: the default for None or '' and the value otherwise |
| SystemPrompt.VectorDbSection | src/utils/prepare_system_prompt.py:29-36 | the memory block is empty iff there is no memory or it is blank; otherwise it wraps the memory |
| SystemPrompt.FillTemplate | src/utils/prepare_system_prompt.py:14-98 | the prompt starts with the header and the user info (or its default) and ends with the response instructions |
| SystemPrompt.HeadAndTail | src/utils/prepare_system_prompt.py:38-98 | a text built as header, user info, middle and tail starts with the first two and ends with the tail |
| SystemPrompt.PromptPartsInOrder | src/utils/prepare_system_prompt.py:14-98 | the agent prompt holds the user info, instructions, function list, call section, summary, history, memory block and response instructions in that order, each defaulted when missing |
| SystemPrompt.InOrderCons | src/utils/prepare_system_prompt.py:38-90 | a part followed by the parts after it keeps the order |
| SystemPrompt.TemplateInOrder | src/utils/prepare_system_prompt.py:38-98 | the template's placeholders are filled in order of appearance |
| Strings.Repr | src/utils/email_agent_v4.py:551-570 | `repr` delimits a string with a double quote when it holds a single quote and no double quote, with a single quote otherwise |
| Strings.ReprRoundTrip | src/utils/email_agent_v4.py:551-570 | `repr` of a string loses nothing: reading the escapes back gives the string |
| Strings.ReprOfPlain | src/utils/email_agent_v4.py:551-570 | printable ASCII without a backslash shows as itself between single quotes, or between double quotes when it holds a single quote and no double quote |
| EmailTools.Quoted | src/utils/email_agent_v4.py:551-570 | each item of a list argument shown in the function-call section is its Python `repr`, which reads back as the item |
| EmailTools.WriteEmailTool | src/utils/email_tools.py:13-21 | reports success and returns the header followed by the content |
| EmailTools.ScheduleMeetingTool | src/utils/email_tools.py:23-35 | succeeds exactly when the attendees have a length, and then states that length in its message; otherwise fails with "object of type '<type>' has no len()" |
| EmailTools.CheckCalendarAvailabilityTool | src/utils/email_tools.py:37-43 | reports success with three fixed slots on that day |
| EmailTools.NoToolReportsFailure | src/utils/email_tools.py:13-43 | none of the three tools returns the failure marker |
| EmailTools.ScheduleMeetingStatesAttendeeCount | src/utils/email_tools.py:23-35 | for a list of attendees the number in the message reads back as the number of attendees |
| Triage.QueryLimit | src/utils/email_triage_manager.py:106-110 | `min(3, count)` |
| Triage.PoolScore | src/utils/email_triage_manager.py:93-124 | an empty pool, a failed search or no distances scores 0; otherwise the mean similarity `1 - d` |
| Triage.SimilaritySumBounds | src/utils/email_triage_manager.py:113-118 | distances in [0, 1] give a similarity sum between 0 and their number |
| Triage.PoolScoreBounds | src/utils/email_triage_manager.py:93-124 | with distances in [0, 1] a pool score lies in [0, 1] |
| Triage.BestIndex | src/utils/email_triage_manager.py:132-133 | `max(..., key=get)`: a highest score, and the first one attaining it |
| Triage.Decide | src/utils/email_triage_manager.py:126-147 | the label is a category or the model's label; all-zero scores give the model's label at 0.5; otherwise the confidence is the highest score and some category attains it |
| Triage.DecideOutcome | src/utils/email_triage_manager.py:126-147 | all scores zero gives the model's label at 0.5; otherwise the confidence is the highest score; at or above the threshold the label is the first best category, below it the model's label |
| Triage.ConfidenceBounded | src/utils/email_triage_manager.py:126-147 | the confidence lies in [0, 1] when every score does |
| Triage.ConfidenceCanBeNegative | src/utils/email_triage_manager.py:113-147 | a distance of 1.5 gives the score -0.5, and that confidence is returned unclamped |
| Triage.NormalizeLabel | src/utils/email_triage_manager.py:187-197 | the stripped, lower-cased reply when it is a category, else `respond`; always a category |
| Triage.StripStripped | src/utils/email_triage_manager.py:187 | a string without outer whitespace is its own strip |
| Triage.NormalizeLabelIdempotent | src/utils/email_triage_manager.py:187-197 | normalising a normalised label gives it again |
| Triage.CategoryIsFixed | src/utils/email_triage_manager.py:187-197 | each category is its own normal form |
| Triage.LowerLowercase | src/utils/email_triage_manager.py:187 | lower-casing lower-case letters changes nothing |
| Triage.EmailTriageManager.constructor | src/utils/email_triage_manager.py:17-51 | one pool per category over the stored examples, with the rules manager and the threshold |
| Triage.EmailTriageManager.AddFewShotExample | src/utils/email_triage_manager.py:53-76 | an unknown category fails and stores nothing; otherwise exactly one document is appended to that pool and the others are unchanged |
| Triage.EmailTriageManager.ClassifyWithLlm | src/utils/email_triage_manager.py:149-197 | the model's classification, always one of the three categories |
| Triage.EmailTriageManager.PoolScores | src/utils/email_triage_manager.py:93-124 | one score per category in order, zero for an empty pool |
| Triage.EmailTriageManager.ClassifyEmail | src/utils/email_triage_manager.py:78-147 | the scoring loop's result is the decision over the pool scores; the label is a category |
| Triage.EmailTriageManager.GetFewShotExamples | src/utils/email_triage_manager.py:199-224 | nothing for an unknown category, an empty pool or a failed read; otherwise the first min(limit, count) documents of the pool |
| Memory.Prefix | src/utils/email_agent_v4.py:261 | `body[:200]`: at most the first n characters, the whole string when it is shorter |
| Memory.JoinedMemoriesEmpty | src/utils/email_agent_v4.py:274-289 | the joined memories are empty exactly when no document is usable |
| Memory.MemoriesAreUsableDocsInOrder | src/utils/email_agent_v4.py:274-289 | the formatted memories are exactly the non-blank documents, each with its 1-based position; none iff all are blank |
| Memory.LoadMemoryFromVectorDb | src/utils/email_agent_v4.py:247-294 | a failed search gives ''; otherwise the joined memories of the usable documents |
| Memory.FieldAfter | src/utils/email_agent_v4.py:328-341 | a field is read from a line exactly when the line contains its tag |
| Memory.Positions | src/utils/email_agent_v4.py:352-398 | the increasing indices of the set flags, and all of them |
| Memory.KeptFlags | src/utils/email_agent_v4.py:352-398 | one keep flag per section |
| Memory.KeptIndices | src/utils/email_agent_v4.py:352-398 | the increasing indices of the sections kept, and all of them |
| Memory.KeptSectionsByIndex | src/utils/email_agent_v4.py:352-398 | the kept sections are the kept indices' sections, each re-prefixed with its marker |
| Memory.ScanHistory | src/utils/email_agent_v4.py:318-349 | the history scan loop collects the identifiers and current subject and sender the scan function describes |
| Memory.SectionIsDuplicate | src/utils/email_agent_v4.py:356-396 | the section loop flags a section exactly when the duplicate test holds |
| Memory.DeduplicateMemory | src/utils/email_agent_v4.py:296-407 | the method's result is the deduplication function's |
| Memory.Deduplicated | src/utils/email_agent_v4.py:296-407 | the history comes back unchanged, or '' when it was blank; blank memory gives '' |
| Memory.DeduplicatedKeepsHistoryAndFilters | src/utils/email_agent_v4.py:296-407 | blank memory gives (history, ''); blank history leaves the memory; otherwise the history is unchanged and the memory keeps exactly the non-duplicate sections in order |
| Memory.ScanLinesIdsGrow | src/utils/email_agent_v4.py:318-349 | scanning more lines never loses an identifier |
| Memory.LowerOccurs | src/utils/email_agent_v4.py:327-328 | an occurrence survives lower-casing both strings |
| Memory.LowerContains | src/utils/email_agent_v4.py:327-328 | containment survives lower-casing |
| Memory.LowerTags | src/utils/email_agent_v4.py:328-336 | the tags lower-case to the keys tested |
| Memory.ColonSplits | src/utils/email_agent_v4.py:381 | a string with a colon splits into more than one part |
| Memory.HitMarksDuplicate | src/utils/email_agent_v4.py:380-385 | an identifier found in the section marks it as a duplicate |
| Memory.ScanThrough | src/utils/email_agent_v4.py:318-349 | scanning one more line is one more scan step |
| Memory.ScanLineRecordsSubject | src/utils/email_agent_v4.py:328-333 | a line with a non-empty subject records `subject:<subject>` |
| Memory.ScanLineRecordsSender | src/utils/email_agent_v4.py:336-341 | a line with a non-empty sender records `sender:<sender>` |
| Memory.HistorySubjectMarksDuplicates | src/utils/email_agent_v4.py:318-385 | a subject seen in the history marks every memory section containing it as a duplicate |
| Memory.HistorySenderMarksDuplicates | src/utils/email_agent_v4.py:318-385 | a sender seen in the history marks every memory section containing it as a duplicate |
| Memory.SplitAtFirstColon | src/utils/email_agent_v4.py:381-382 | splitting on ':' separates at the first colon |
| Memory.SplitNoColon | src/utils/email_agent_v4.py:381-382 | a string without ':' splits into itself |
| Memory.IdentifierValueStopsAtColon | src/utils/email_agent_v4.py:381-382 | `identifier.split(':')[1]` is the text up to the next colon, so a subject holding a colon is cut there |
| Memory.CheckTokenLimit | src/utils/email_agent_v4.py:409-429 | over the limit iff the token count exceeds it, or, when counting fails, the length exceeds 4 characters per token |
| Memory.CheckTokenLimitAntitone | src/utils/email_agent_v4.py:409-429 | text over a larger limit is over any smaller one |
| Memory.PySliceTo | src/utils/email_agent_v4.py:475-477 | Python's `s[:n]`: a prefix |
| Memory.MemorySummaryPrompt | src/utils/email_agent_v4.py:443-458 | the prompt quotes the memory after its introduction, cut to `(max_tokens // 2) * 4` characters when longer |
| Memory.TruncateMiddle | src/utils/email_agent_v4.py:476-478 | the first 40% and the last 40% of the text, around the fixed marker, with the stated length |
| Memory.SummarizeMemory | src/utils/email_agent_v4.py:431-483 | empty text stays empty; the model's summary when it answers; on failure a text over 2000 characters loses its middle and a shorter one is kept |
| Memory.TruncationShortens | src/utils/email_agent_v4.py:474-480 | a text over 2000 characters always comes out shorter, keeping its first 40% |
| Generation.FirstStray | src/utils/email_agent_v4.py:105-123 | the position of the first argument key that is not a parameter of the tool, every key before it being one; none exactly when every key is a parameter |
| Generation.Missing | src/utils/email_agent_v4.py:105-123 | exactly the parameters, in declaration order, that no argument key binds |
| Generation.BindingError | src/utils/email_agent_v4.py:105-123 | no error exactly when the keys are the tool's parameters; else CPython's TypeError text: "got multiple values for argument 'self'" or "got an unexpected keyword argument 'k'" for the first stray key `k`, and when every key is a parameter "missing N required positional argument(s): ..." naming the unbound parameters in order |
| Generation.ExecuteFunctionCall | src/utils/email_agent_v4.py:81-139 | each known function goes to its tool and reports its marker and result; a bad binding fails with the tool's error prefix and the TypeError text; an unknown function reports failure |
| Generation.StubToolsFailOnlyOnBadArguments | src/utils/email_agent_v4.py:81-139 | the stub tools fail exactly on a bad keyword binding or attendees without a length |
| Generation.SectionError | src/utils/email_agent_v4.py:544-570 | building the section raises exactly when the function name or arguments are unbound or the arguments are not an object; an unbound name gives Python's UnboundLocalError text, `function_name` checked first, and non-object arguments give the `.items()` error |
| Generation.ArgLines | src/utils/email_agent_v4.py:551-570 | the argument lines are empty exactly when there are no arguments |
| Generation.ArgLinesListEachArg | src/utils/email_agent_v4.py:551-570 | every argument's `  - k: v` line appears, in the order of the object, right after the lines of the arguments before it |
| Generation.SuccessSection | src/utils/email_agent_v4.py:551-559 | the section names the function in its header, lists the arguments right after it and ends with the call's result |
| Generation.FailedSection | src/utils/email_agent_v4.py:564-570 | the section names the function, lists the arguments right after it and ends with the state, the result and the request to assist |
| Generation.LoopSection | src/utils/email_agent_v4.py:741-743 | the section names the function after the fixed heading and ends with the request to conclude |
| Generation.OutcomeText | src/utils/email_agent_v4.py:617-783 | the text `_generate_response` returns for each way the loop ends: the reply, the fallback content (even `None`), or the error text with its fixed prefix |
| Generation.GuardedPrompt | src/utils/email_agent_v4.py:580-610 | when the prompt is over budget the history is summarised and the prompt rebuilt without the memory; otherwise both are unchanged |
| Generation.ReplyAt | src/utils/email_agent_v4.py:617-630 | a tool call only comes from a reply actually given |
| Generation.PassStart | src/utils/email_agent_v4.py:544-610 | after a success or failure marker, building the section raises exactly when the name or arguments are unbound or the arguments are not an object; otherwise the pass sends one prompt, keeps the call history, and is final after a success |
| Generation.Act | src/utils/email_agent_v4.py:617-783 | a failed call ends with its error, content with itself, an empty reply with the warning; after a final pass one tool-free completion; arguments that are not JSON, or not an object, fail the call without running it; a tool call runs once unless repeated |
| Generation.Step | src/utils/email_agent_v4.py:541-783 | a continuing pass sends exactly one prompt; an ending one at most two; a section error ends the loop; prompts and history are only appended to |
| Generation.Run | src/utils/email_agent_v4.py:539-783 | the loop only appends to the executed signatures and the prompts, and sends at most two prompts past the replies given |
| Generation.RunUnrolled | src/utils/email_agent_v4.py:541 | the loop is one pass followed by the loop |
| Generation.StepActs | src/utils/email_agent_v4.py:541-783 | a pass is the reply handling applied to the pass's prompt and reply |
| Generation.StartPass | src/utils/email_agent_v4.py:544-610 | the method computes the start of a pass |
| Generation.ActOnCallState | src/utils/email_agent_v4.py:544-578 | the method computes the call-state handling at the top of the loop |
| Generation.BuildPrompt | src/utils/email_agent_v4.py:580-610 | the method computes the guarded prompt |
| Generation.ActOnReply | src/utils/email_agent_v4.py:617-783 | the method computes the reply handling |
| Generation.RunPass | src/utils/email_agent_v4.py:541-783 | the method computes one pass |
| Generation.GenerationLoop | src/utils/email_agent_v4.py:539-783 | the while loop's outcome, executed signatures and prompts are those of the state machine |
| GenerationProps.StepExtendsHistoryWithNewSignature | src/utils/email_agent_v4.py:733-758 | a pass leaves the call history alone or appends a signature not yet in it |
| GenerationProps.ExtendDistinct | src/utils/email_agent_v4.py:733-758 | such an extension keeps the history free of repeats |
| GenerationProps.AppendDistinct | src/utils/email_agent_v4.py:733-758 | appending a new signature keeps a history free of repeats |
| GenerationProps.RunExecutesNoSignatureTwice | src/utils/email_agent_v4.py:733-758 | from a repeat-free history the loop executes no signature twice and keeps the earlier ones in order |
| GenerationProps.GenerationExecutesNoSignatureTwice | src/utils/email_agent_v4.py:733-758 | `_generate_response` never executes the same `(name, args)` signature twice |
| GenerationProps.RepeatedSignatureEndsUnfinished | src/utils/email_agent_v4.py:740-747 | a repeated call runs no tool, makes no further model call and ends with the sentinel text |
| GenerationProps.NonObjectArgumentsEndLoop | src/utils/email_agent_v4.py:544-783 | arguments that decode to JSON but not to an object store the error as the call result; the next pass ends with "Error in while loop: " and that error, having run no tool |
| GenerationProps.SectionErrorEndsRun | src/utils/email_agent_v4.py:541-775 | after a failed call whose section cannot be built, the loop ends with that error, sending no further prompt and running no tool |
| GenerationProps.UndecodableFirstArgumentsEndLoop | src/utils/email_agent_v4.py:544-783 | first-reply arguments that are not JSON leave `function_args` unbound; the next pass ends with "Error in while loop: " and the UnboundLocalError text, after one prompt and no tool |
| GenerationProps.ReplyWithoutToolCallEndsLoop | src/utils/email_agent_v4.py:632-678 | a reply without a function call ends the loop at once with its error, its content or the warning, after one prompt |
| GenerationProps.AfterSuccessLoopEnds | src/utils/email_agent_v4.py:544-729 | after a successful tool the loop runs no more tools and makes at most two more model calls; a second call request is answered by one tool-free completion |
| Agent.CoerceClassification | src/utils/email_agent_v4.py:179-198 | a label outside the three categories, or a failed classification, becomes `respond` at 0.5; otherwise it is kept |
| Agent.Recall | src/utils/email_agent_v4.py:247-294 | the recalled memory is empty exactly when the search fails or no document is usable |
| Agent.PreparedMemory | src/utils/email_agent_v4.py:496-536 | the memory is deduplicated, and over the token limit deduplicated again against the summarised recall |
| Agent.UserMessage | src/utils/email_agent_v4.py:539 | the sender and the subject follow their labels, and the body ends the message |
| Agent.MessagePair | src/utils/email_agent_v4.py:659 | the document holds the user message after "email: " and ends with the response |
| Agent.EmailAgent.constructor | src/utils/email_agent_v4.py:28-79 | the agent starts with its managers, limits and template, and an empty vector-store log; the history and rules managers serve one user, and the triage manager holds a copy of the rules table exactly when that user is truthy |
| Agent.EmailAgent.PrepareLoop | src/utils/email_agent_v4.py:496-539 | steps 1 to 4 compute the loop's environment and starting history |
| Agent.EmailAgent.Persist | src/utils/email_agent_v4.py:632-729 | a reply or a fallback completion (even `None`) goes to the window, to the history table when the database accepts the row, and to the vector store unless it raises; a reply whose row was saved counts one pair and runs the summary update; a fallback never updates the summary; other outcomes change nothing |
| Agent.EmailAgent.PersistReply | src/utils/email_agent_v4.py:632-665 | the memory updates of a reply, as stated for `Persist` |
| Agent.EmailAgent.PersistFallback | src/utils/email_agent_v4.py:683-727 | the memory updates of a fallback completion, as stated for `Persist`; the vector document prints a `None` content as "None" |
| Agent.EmailAgent.StoredOnlyAppends | src/utils/email_agent_v4.py:641-665 | storing a pair appends at most one history row, which carries the response, and at most one vector document, which holds the user message |
| Agent.EmailAgent.PersistedOnlyAppends | src/utils/email_agent_v4.py:632-729 | persisting any outcome only appends to the history, summary and vector tables, one entry each at most, and the counter is reset, unchanged, or one higher |
| Agent.EmailAgent.GenerateResponse | src/utils/email_agent_v4.py:485-783 | returns the loop's text and persists the outcome as above |
| Agent.EmailAgent.SaveToVectorDb | src/utils/email_agent_v4.py:660-665 | adds one document unless the store raises |
| Agent.EmailAgent.WithId | src/utils/email_agent_v4.py:158-159 | keeps an existing id, else uses a fresh one |
| Agent.EmailAgent.Classified | src/utils/email_agent_v4.py:179-198 | the coerced classification, always a category |
| Agent.EmailAgent.Labelled | src/utils/email_agent_v4.py:158-198 | the email with its id, label and confidence, its content unchanged |
| Agent.EmailAgent.Label | src/utils/email_agent_v4.py:158-198 | the method labels the email as above |
| Agent.EmailAgent.Acknowledge | src/utils/email_agent_v4.py:201-223 | the fixed answer with the confidence, and at most one history row with the fixed note: none without a user or when the email id is already stored |
| Agent.EmailAgent.AnsweredOnlyAppends | src/utils/email_agent_v4.py:199-245 | answering only appends to the tables, one entry each at most; an ignored or notified email leaves the window, the counter and the vector store alone |
| Agent.EmailAgent.Dispatch | src/utils/email_agent_v4.py:199-245 | ignore and notify get the fixed answer and at most one noted row; respond gets the loop's text and its outcome persisted; the managers still serve one user over one rules table |
| Agent.EmailAgent.ProcessEmail | src/utils/email_agent_v4.py:141-245 | labels the email, then answers it as the dispatch states; the managers still serve one user over one rules table |

## Left out

- The delegating methods of `email_agent_v4.py` (lines 785-839) are not modelled separately. Each forwards to the triage, optimizer or rules method modelled above.
- The reply-thread heuristic in `process_email` (lines 163-172) is left out. It computes a value nothing reads.
- The database is assumed to raise exactly on a NOT NULL or UNIQUE violation of `email_history`. `sql_manager.py` is not part of this model, so other database faults are left out. The model covers the catches around `add_to_history` in `_generate_response` (lines 641-654 and 700-709) and around `save_to_db` in `process_email` (lines 204-210 and 216-222).
- An exception escaping `_generate_response`, which `process_email` turns into an error text (lines 230-235), is left out. Every failure the loop itself catches is modelled except the two below. A failing vector-store save is modelled by the `vectorSaveFails` oracle.
- A failing read of the agent instructions inside the loop is left out. The source then falls back to its fixed default text (`email_agent_v4.py:574-578`). The read can only fail in the database (`execute_query` in `sql_manager.py`, which is not part of this model), so `Rules.EmailRulesManager.GetRules` always answers.
- Exceptions from `json.loads` other than `JSONDecodeError` are left out. One example is a `RecursionError` on deeply nested arrays, which the catch at `email_agent_v4.py:763-766` stores as `str(e)` without the "Invalid function arguments: " prefix, keeping the previous `function_args`. The model's decoder either succeeds or fails with a decode error, so `Generation.Act` and `Generation.ActOnReply` give only the prefixed text.
- History.Reverse: rows are kept in insertion order, which stands for `timestamp` order. Rows inserted in the same second share a `CURRENT_TIMESTAMP` (`prepare_sqldb.py:88`), and SQLite may then return them in either order. That tie is not modelled.
- Generation.OutcomeText: the loop-failure text is "Error in while loop: " and the error. The newline and the `format_exc()` traceback that line 773 appends are not modelled.
- Generation.GuardedPrompt: the prompt budget is the default 12000 of `getattr(self.cfg, 'max_prompt_tokens', 12000)` (line 592). A configured `max_prompt_tokens` is not modelled.
- SystemPrompt.PrepareSystemPromptForEmailAgent carries no contract of its own. It is `FillTemplate` applied to the fixed agent template, and `FillTemplate` and `PromptPartsInOrder` state its properties for every template.
- Optimizer.EmailPromptOptimizer.OptimizeRules: does not model an exception raised inside the update loop, which leaves the earlier writes in place and returns {}. Storage faults are not part of this model.
- The language model, the embedding search, the token counter, uuid generation, `.2f` formatting, `json.loads` and `str()` of the history are oracle parameters. They are foreign or I/O code.
- Logging and timestamps are left out.
- Triage.PoolScore: similarities are real numbers, not floating point, so rounding is not modelled.
- Memory.TruncateMiddle: uses the exact cut points ⌊4n/10⌋ and ⌊6n/10⌋ where the code computes `int(n*0.4)` and `int(n*0.6)` in floating point.
- Generation.BindingError: CPython 3.13 appends a "Did you mean ...?" suggestion to an unexpected-keyword message when a parameter name is close. That suggestion is not modelled.
- Tool arguments are the dictionary `json.loads` returns, one entry per key. A JSON object that repeats a key, which `json.loads` merges, is not modelled.
- EmailTools.Quoted: `repr` escapes as `\xhh` the ASCII and C1 controls, DEL, the no-break space and the soft hyphen. Other non-ASCII characters that Python deems unprintable (its `\u`/`\U` escapes) are shown as they are.
- The agent, its triage manager and the prompt optimizer each open a rules manager over one database table. The model gives each manager its own copy of the rows. `EmailAgent.Valid` states that the agent's two copies agree, and nothing in the agent writes to them. A rule update through one manager is not seen by the others' copies.
- `str.lower` is modelled on ASCII letters only. Unicode case folding is out of scope.
- Generation.GenerationLoop: the model's replies are a sequence. A model call past its end counts as a failed call, so every run terminates. An endless stream of distinct tool calls is therefore not modelled.
- Signature equality compares the argument dictionaries. It stands for comparing `str(sorted(args.items()))` and does not model two distinct values that print alike.
- `add_user_info_to_database` and `search_vector_db` are modelled only through their results. Their storage effects belong to services outside this model.
- Database connections, table creation and the ChromaDB clients are not part of this model.
- Triage.EmailTriageManager.GetFewShotExamples: the limit is a natural number. A negative `limit` passed to ChromaDB is not modelled.
