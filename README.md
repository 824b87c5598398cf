# CodeCompanion chat and agent bookkeeping, modelled in Dafny

This project models the deterministic bookkeeping that CodeCompanion (an
Electron coding assistant) does around its language-model calls, and proves
properties of it. It covers:

- the chat's two message lists and their shared id counter (`js/chat.js`);
- the context builder, which chooses what the model sees on each turn:
  - a rolling summary of older history;
  - a window of recent messages;
  - the relevant-file list;
  - line-numbered file contents;
  - the system and user messages
  (`app/chat/chat_context_builder.js`);
- the agent's tools (`app/tools/tools.js`) and the research agent's tools (`app/chat/planner/tools.js`);
- the research agent's bounded step loop (`app/chat/planner/researchAgent.js`);
- the agent dispatcher (`app/chat/agent.js`):
  - the approval gate;
  - how rejections and tool errors are recorded;
  - the argument fallback;
  - the folder listing;
- the TTL cache (`js/cache_manager.js`);
- the request builders and response normalisers of the OpenAI and Anthropic clients (`app/models/openai.js`, `app/models/anthropic.js`);
- the in-memory embedding record store and its search filtering (`js/code_embeddings.js`);
- the controller's settings, provider routing, usage accounting and entry guards (`app/chat_controller.js`).

The model keeps the source's own shape:

- Objects whose fields change become classes with `modifies` frames:
  - `ChatStore.Chat`;
  - `Cache.CacheManager`;
  - `ContextBuilder.ChatContextBuilder`;
  - `Tools.ToolContext`;
  - `ResearchAgents.ResearchAgent`;
  - `Agents.Agent`;
  - `OpenAIModels.ToolCallAccumulator`;
  - `Embeddings.CodeEmbeddings`;
  - `Controller.ChatController`.
- Loops in the source are `while` loops with invariants. Each such method is proved against a specification function, and the properties are proved about those functions.
- Anything outside the program becomes a function-typed parameter:
  - model calls, and the user's approval;
  - file system access, JSON parsing and serialisation;
  - token counting, hashing and the vector store's similarity search.
- The current time is a parameter.
- An asynchronous result that arrives later is a separate step (`ChatContextBuilder.CompleteCompression`).

Files: `values.dfy` (shared JSON, content and message types), `seqs.dfy`
(filter, dedup, search over sequences), `text.dfy` (JavaScript string
operations), and one file per source file.

## Model

| member | source | states |
|---|---|---|
| ChatStore.Chat.constructor | js/chat.js:8-16 | Both lists start empty, the counter at 1 and the last backend id at 0, and the id invariant holds. |
| ChatStore.Chat.IsEmpty | js/chat.js:18-20 | True exactly when the display list is empty. |
| ChatStore.Chat.GetNextId | js/chat.js:22-25 | The counter goes up by one and the new value is returned. The first id issued is 2, and the id invariant is kept. |
| ChatStore.Chat.GetLastUserMessage | js/chat.js:27-30 | None exactly when no display message has role user. Otherwise the content of the last display message with role user. |
| ChatStore.Chat.AddFrontendMessage | js/chat.js:32-42 | Appends exactly one message. Its id is the next counter value, larger than every earlier display id and used by no backend message. It links to the backend id current at that moment (0 before any). |
| ChatStore.Chat.AddBackendMessage | js/chat.js:44-59 | Appends exactly one message with a fresh id, which also becomes lastBackendMessageId. The function call is kept as given, and a name only when it is non-empty. The display list is untouched. |
| ChatStore.Chat.AddMessage | js/chat.js:80-83 | Adds a backend message with id n+1, then a display message with id n+2 that links to it. |
| ChatStore.InsertProjectState | js/chat.js:61-70 | The backend list gains exactly one system message with id 1, at the index of the last user or assistant message, with the rest in order. With no such message, the splice at -1 puts it before the last element, or alone in an empty list. |
| ChatStore.Chat.AddProjectStateMessage | js/chat.js:61-70 | The backend list becomes InsertProjectState of the old list, and the id invariant (which exempts id 1) still holds. |
| ChatStore.ProjectStateRepeatsId | js/chat.js:63 | Every insertion adds one more message with id 1, so repeated project-state messages share an id. |
| ChatStore.CountIdAppend | js/chat.js:63 | Counting an id is additive over concatenation; used for ProjectStateRepeatsId. |
| ChatStore.FindLastIndex | js/chat.js:72-78 | Returns the greatest index whose element satisfies the predicate, or -1 when none does. |
| ChatStore.Chat.DeleteMessagesThatStartWith | js/chat.js:92-94 | Removes exactly the backend messages whose non-empty string content starts with the pattern. The others stay, in their order. |
| ChatStore.Chat.DeleteMessagesAfterId | js/chat.js:96-107 | An unknown id changes nothing. Otherwise the display list is cut just before that message. The backend list is cut just before the linked backend message, or left alone when no backend message has that id. |
| Cache.Lookup | js/cache_manager.js:7-13 | A value comes back exactly when the stored value is truthy and has no expiry or one after now, and it is the stored value. |
| Cache.CacheManager.constructor | js/cache_manager.js:2-5 | Both maps start empty. |
| Cache.CacheManager.Get | js/cache_manager.js:7-13 | The result is Lookup at the given time. |
| Cache.CacheManager.Has | js/cache_manager.js:22-28 | True exactly when Get would return a value. |
| Cache.CacheManager.Set | js/cache_manager.js:15-20 | Stores the value. Records now + ttl as the expiry only when ttl is truthy; otherwise any earlier expiry is kept. |
| Cache.SetThenGet | js/cache_manager.js:15-20 | A truthy value set with a non-zero ttl is returned at any time before now + ttl. |
| Cache.SetWithoutTtlKeepsExpiry | js/cache_manager.js:17-19 | Setting without a ttl keeps an old expiry, so a re-set key that had expired still reads as missing. |
| Cache.SetLeavesOtherKeys | js/cache_manager.js:15-20 | Setting one key does not change what any other key reads. |
| Cache.FalsyIsAbsent | js/cache_manager.js:9 | A stored falsy value reads as missing. |
| Cache.ExpiryIsFinal | js/cache_manager.js:9 | Once a truthy entry reads as expired, it stays expired at every later time. |
| Cache.CacheManager.Remove | js/cache_manager.js:30-33 | Deletes the key from both maps, after which it reads as missing at every time. |
| Cache.CacheManager.Clear | js/cache_manager.js:35-38 | Both maps become empty. |
| Cache.Expired | js/cache_manager.js:42-43 | Exactly the keys whose expiry is at or before now. |
| Cache.CacheManager.CleanUp | js/cache_manager.js:40-47 | Removes exactly the expired keys from both maps. |
| Cache.CleanUpInvisible | js/cache_manager.js:40-47 | Cleaning up never changes what any key reads at the same or a later time. |
| ContextBuilder.StripImages | app/chat/chat_context_builder.js:155-161 | An array content loses exactly its image parts. Id, role and tool calls are kept, and any other content is left alone. |
| ContextBuilder.StripDiff | app/chat/chat_context_builder.js:203-205 | A text with no `<changes_made_to_file>` is kept as it is. Otherwise the span from the first opening tag to the last closing tag is removed. The result is never longer. |
| ContextBuilder.ToolUseItems | app/chat/chat_context_builder.js:211-218 | One `tool_use` item per tool call, in order, carrying only the call's name. |
| ContextBuilder.FormatMessageForSummary | app/chat/chat_context_builder.js:198-222 | Role `tool` becomes `user` and other roles are kept. A truthy content becomes the first item, typed `tool_result` for tool messages and `text` otherwise, with diff blocks stripped only when removeCodeDiff is set. Each tool call follows as a name-only item. |
| ContextBuilder.Preprocess | app/chat/chat_context_builder.js:155-161 | Same length as the history, with each message's image parts removed. |
| ContextBuilder.NewlySummarized | app/chat/chat_context_builder.js:162-170 | Holds exactly the messages before the last 6 whose id is above the summary mark, with images removed, in both directions. |
| ContextBuilder.RecentCandidates | app/chat/chat_context_builder.js:181-182 | At most 6 messages, exactly those of the last 6 whose id is above the summary mark. |
| ContextBuilder.RecentWindow | app/chat/chat_context_builder.js:181-185 | The candidates, minus the final one exactly when its role is user. |
| ContextBuilder.PlanSummary | app/chat/chat_context_builder.js:150-196 | Compression is requested exactly when the newly serialised delta exceeds 2000 tokens. The request carries the past summary plus the delta and the id of the last message in the delta. The summary is WrapHistory of the past summary, a blank line, the delta (NewlySummarized, diffs stripped) and the RecentWindow serialised with diffs kept; it is empty or starts with the `<conversation_history>` opening. |
| ContextBuilder.WrapHistory | app/chat/chat_context_builder.js:190-193 | Empty exactly when the history text is blank; otherwise the history wrapped in its tags. |
| ContextBuilder.PostProcessSummary | app/chat/chat_context_builder.js:256-265 | A missing or empty model result gives back the messages that were sent. |
| ContextBuilder.PostProcessBracketed | app/chat/chat_context_builder.js:256-262 | A summary of the form blank, `[`, body, `]`, blank becomes the body followed by a comma. |
| ContextBuilder.ChatContextBuilder.CompleteCompression | app/chat/chat_context_builder.js:175-178 | The past summary and the summary mark advance together, to the post-processed result and the request's last id. |
| ContextBuilder.CombineRelevantFiles | app/chat/chat_context_builder.js:294-297 | The result is the first min(20, n) paths of the duplicate-free merge of chat, task and edited files (RelevantFilesOrder gives that merge's order). No duplicates, each from one of the three lists, and every input path is kept when the merge fits. |
| ContextBuilder.RelevantFilesOrder | app/chat/chat_context_builder.js:294 | The merged list is the chat files first, then the new task files, then the new edited files. |
| ContextBuilder.CombineIsIdempotent | app/chat/chat_context_builder.js:294-298 | A list already without duplicates and within the cap is returned unchanged. |
| ContextBuilder.InteractionFiles | app/chat/chat_context_builder.js:303-314 | The scan fails exactly when a newer assistant message has a tool call, because each call's argument string is handed to `parseArguments` as a call record. Otherwise it finds no file. |
| ContextBuilder.ChatContextBuilder.GetChatInteractionFiles | app/chat/chat_context_builder.js:303-322 | Returns InteractionFiles for the stored mark. On success the mark becomes NextScanMark: the last index of the list as written (line 319), the newest id scanned as intended. |
| ContextBuilder.ChatContextBuilder.GetListOfRelevantFiles | app/chat/chat_context_builder.js:290-301 | On success the merged list is returned and also becomes taskRelevantFiles, and the edit timestamp becomes now, and the scan mark moves as in GetChatInteractionFiles. On failure no field changes. |
| ContextBuilder.ScanMarkAsWrittenRescans | app/chat/chat_context_builder.js:305-319 | Storing the last index as the mark leaves both messages of a two-message history newer than the mark, so they are scanned again. |
| ContextBuilder.ScanMarkSeesNothingTwice | app/chat/chat_context_builder.js:305-319 | With the newest id as the mark, no scanned message is newer than the mark. |
| ContextBuilder.FileBlocks | app/chat/chat_context_builder.js:324-335 | One `<file_content>` block per file, in order, holding that file's read result. |
| ContextBuilder.ReducedFiles | app/chat/chat_context_builder.js:349-350 | A prefix of the ranked list, at most 7 long. |
| ContextBuilder.ReducedFilesAsWrittenOverflows | app/chat/chat_context_builder.js:349-350 | With 8 ranked files, all 8 are read back, including the eighth, which is not among the 7 kept. |
| ContextBuilder.ReducedFilesMatchKept | app/chat/chat_context_builder.js:349-350 | The corrected reduction reads back exactly the kept files, in order. |
| ContextBuilder.ChatContextBuilder.ReduceRelevantFilesContext | app/chat/chat_context_builder.js:337-355 | The input comes back and taskRelevantFiles stays unless all hold: over 10000 tokens, more than 7 files, 10 messages since the last reduction or none yet, and the model returns a list. The reduction mark moves whenever the first three hold. After a reduction at most 7 paths remain; the contents returned are those of ReturnedFiles: every ranked file as written (line 350), only the kept ones as intended. |
| ContextBuilder.NumberLines | app/chat/chat_context_builder.js:408-411 | Same number of lines. Line i gets the number from+i padded to width 4, then `|`, then the line. |
| ContextBuilder.AddLineNumbersLines | app/chat/chat_context_builder.js:406-414 | The numbered text splits into exactly the numbered input lines, so the line count is kept. |
| ContextBuilder.NumberPrefixWidth | app/chat/chat_context_builder.js:409-410 | Below 10000 lines the prefix is exactly 5 characters, and dropping it gives back the line. |
| ContextBuilder.DropPrefixes | app/chat/chat_context_builder.js:409-410 | Removes the first 5 characters of each line; the inverse of the numbering. |
| ContextBuilder.AddLineNumbersRoundTrip | app/chat/chat_context_builder.js:406-414 | Below 10000 lines, removing every 5-character prefix from the numbered text gives back the original content. |
| ContextBuilder.ReadFile | app/chat/chat_context_builder.js:389-404 | A stat error gives the error text. A non-text file gives the not-a-text-file text, checked before size. A text file over 100000 bytes gives the too-large text. Otherwise the line-numbered content, or the error text if the read fails. |
| ContextBuilder.LastUserSection | app/chat/chat_context_builder.js:416-422 | A falsy message contributes nothing; otherwise the message wrapped in `<user>` tags. |
| ContextBuilder.FirstImage | app/chat/chat_context_builder.js:75 | An image part that belongs to the message. |
| ContextBuilder.FirstImageIsFirst | app/chat/chat_context_builder.js:75 | The part FirstImage picks has no image part before it in the message: it is the first image part, as `find` returns. |
| ContextBuilder.GetImageMessages | app/chat/chat_context_builder.js:69-77 | Image parts only, at most one per message. Empty exactly when no message has an image. |
| ContextBuilder.GetImageMessagesPerMessage | app/chat/chat_context_builder.js:69-77 | One entry per message with an image, in message order: entry i is the first image part of the i-th such message. |
| ContextBuilder.AssembleUserMessage | app/chat/chat_context_builder.js:44-66 | Without images the content is the joined text. With images it is the images in order, then one text part. |
| ContextBuilder.AllSectionsInOrder | app/chat/chat_context_builder.js:44-52 | With every section present, the text is task, summary, user, source information and reflection, one per line in that order. |
| ContextBuilder.EmptySectionsSkipped | app/chat/chat_context_builder.js:50-52 | Empty sections leave no blank line: only the present sections are joined. |
| ContextBuilder.FinishAddendum | app/chat/chat_context_builder.js:95 | The intended addendum: a blank line, then the finish-task template. |
| ContextBuilder.FinishAddendumAsWrittenIsUndefined | app/chat/chat_context_builder.js:95 | The addendum as written is a blank line followed by the text `undefined`, so it differs from the intended one for any real template. The prompt text is at lines 4-8. |
| ContextBuilder.ChatContextBuilder.AddSystemMessage | app/chat/chat_context_builder.js:79-106 | The plan template is used, and both flags set, exactly when a plan is pending with no user message yet or an empty chat needs one. The complex flag is never cleared. The finish addendum is added exactly when there are more than 7 backend messages or the task is not complex. Then custom instructions, then `{osName}` and `{shellType}` are substituted. |
| ContextBuilder.ChatContextBuilder.constructor | app/chat/chat_context_builder.js:19-30 | All marks start at 0, the edit timestamp at the chat's start, with no relevant files, no past summary and both plan flags false. |
| Tools.FindByName | app/tools/tools.js:509 | A found entry is in the list and has that name. None means no entry has that name. |
| Tools.FindTool | app/tools/tools.js:11-177 | A tool found by name carries that name. |
| Tools.FindToolSearchesTable | app/tools/tools.js:11-177 | Looking a tool up by name agrees with searching the definition table in order. |
| Tools.ApprovalFlags | app/tools/tools.js:11-177 | An entry needs approval exactly when it creates or overwrites a file, replaces code, or runs a shell command. Search needs none, because its flag is spelled `requiresApproval` at line 150. |
| Tools.ProjectAll | app/tools/tools.js:490-497 | One spec per definition, in order: name, description with `{shellType}` substituted, and parameters. |
| Tools.FilterProjectByName | app/tools/tools.js:490-505 | Filtering the projected specs by name equals projecting the definitions filtered by name. |
| Tools.EnabledExceptOf | app/tools/tools.js:499-505 | Enabled minus the named tools equals the projection of the definitions that are enabled and not named. |
| Tools.AllEnabledExceptSpec | app/tools/tools.js:503-505 | `allEnabledExcept` is the definition-order projection of the enabled, unnamed definitions. |
| Tools.PlanningTools | app/tools/tools.js:507-517 | Fails exactly when no `task_planning_done` tool is defined. |
| Tools.PlanningToolsAlwaysFails | app/tools/tools.js:509 | The table has no `task_planning_done`, so `planningTools` always fails. |
| Tools.CompletedThrough | app/tools/tools.js:523-527 | Same length. Steps before k are marked completed with title and description kept, and later steps are untouched. |
| Tools.CompletionComposes | app/tools/tools.js:519-530 | Completing through a and then through b is completing through the larger of the two, so flags are never cleared. |
| Tools.ToolContext.constructor | app/tools/tools.js:519-530 | The context holds the given plan. |
| Tools.ToolContext.CompleteTaskPlanStep | app/tools/tools.js:519-530 | With a plan and a step id, the plan becomes CompletedThrough that id. With no plan or no id, nothing changes. |
| Tools.ToolContext.UpdateTaskPlan | app/tools/tools.js:532-537 | The plan is replaced wholesale, and the fixed success text and notice are returned. |
| Tools.CodeAfterReplaceLines | app/tools/tools.js:298-310 | The new lines are the lines before the start (JavaScript slice), then the replacement's lines, then the lines after the end. |
| Tools.CodeAfterReplaceInRange | app/tools/tools.js:298-310 | For an in-range start and end, the lines before start-1 and after end are kept verbatim around the replacement. |
| Tools.ToolContext.ReplaceInFile | app/tools/tools.js:266-296 | Writes nothing and leaves the plan when the target is missing, the file does not exist, or the start line is below 1, each with its fixed message. Otherwise it writes the replaced content, reports the diff and ticks off the plan step. |
| Tools.ToolContext.CreateFile | app/tools/tools.js:251-264 | A missing target writes nothing. Otherwise the text is written, the success message returned and the plan step ticked off. |
| Tools.ReadFileTool | app/tools/tools.js:312-327 | A missing target gives the fixed reply, and a missing file the does-not-exist text. Otherwise the file is reported read. |
| Tools.TruncateLinesShape | app/tools/tools.js:340-346 | Output over 100 lines becomes the first 5 lines, the marker line and the last 95 lines (101 lines). Shorter output is unchanged. |
| Tools.TruncateChars | app/tools/tools.js:347-350 | Output over 5000 characters becomes the marker, a newline and its last 5000 characters. Shorter output is unchanged. |
| Tools.ShellResult | app/tools/tools.js:340-352 | The result is the `Command executed` header with the command, then the truncated output with the first occurrence of the command cut out (the fixed success text when nothing is left), then a closing quote. |
| Tools.ShellEmptyOutput | app/tools/tools.js:351-352 | Empty output reports the fixed "executed successfully" text. |
| Tools.ShellShowsShortOutput | app/tools/tools.js:340-352 | Output of at most 100 lines and 5000 characters that does not contain the command is shown verbatim between the header and the closing quote. |
| Tools.ToolContext.Shell | app/tools/tools.js:329-356 | A background command returns "Command started in the background" at once. Otherwise the ShellResult. The plan step is ticked off either way. |
| Tools.BrowserResult | app/tools/tools.js:234-249 | "Browser opened " with the URL, or a fixed placeholder for `data:` URLs; then the console output verbatim between `<console_output>` tags; then the screenshot note exactly when a screenshot was asked for. |
| Tools.ToolContext.Browser | app/tools/tools.js:234-249 | Returns BrowserResult with the "Opened in browser" notice and ticks off the plan step. |
| Tools.UnifiedSearchResult | app/tools/tools.js:469-482 | `codebase` and `google` are each headed with the query and followed by their back end's answer. Any other type gives "Invalid search type specified.". |
| Tools.ToolContext.UnifiedSearch | app/tools/tools.js:469-482 | Returns UnifiedSearchResult. The plan step is ticked off only for a valid search type. |
| Tools.HitPaths | app/tools/tools.js:366 | The paths of the hits, one per hit, in order. |
| Tools.HitContents | app/tools/tools.js:370 | The contents of the hits, one per hit, in order. |
| Tools.SearchCodeResult | app/tools/tools.js:358-377 | No hits gives "No results found". Otherwise the hit contents are joined by blank lines, and the notice counts the distinct files and lists the link of each distinct file, in first-seen order. |
| Tools.SearchCodeCountsFilesOnce | app/tools/tools.js:366-369 | The file count equals the number of distinct hit paths. |
| Tools.NoSchemaDeclaresFileName | app/tools/tools.js:11-177 | No tool's parameter schema declares a `fileName` property. |
| Tools.PreviewMessage | app/tools/tools.js:179-232 | There is a preview exactly for the defined tools. A replacement shows the diff under the file link. A new file shows its diff, or its text when there is no diff. |
| PlannerTools.StrArray | app/chat/planner/tools.js:4-50 | One JSON string per name, in order. |
| PlannerTools.MapWithOutputFormat | app/chat/planner/tools.js:85-98 | One entry per definition, in order, each passed through the output-schema swap. |
| PlannerTools.ToolsOnlyChangeOutput | app/chat/planner/tools.js:85-98 | `tools(outputFormat)` keeps the length, order, names, descriptions and executability. Only `output` changes, and its properties become the given format. |
| PlannerTools.OnlyOutputIsNotExecutable | app/chat/planner/tools.js:4-50 | Exactly the `output` entry has no execute function. |
| PlannerTools.ReadFileEntry | app/chat/planner/tools.js:54-61 | A missing file gives the does-not-exist text. An existing one gives the `<filecontent>` opening with its resolved path, a newline, the content verbatim, a newline and the closing tag. |
| PlannerTools.ReadFileEntries | app/chat/planner/tools.js:52-65 | One entry per input path, in input order, each the entry for that path. |
| PlannerTools.ReadFilesLines | app/chat/planner/tools.js:52-65 | With existing one-line files, the joined result has exactly three lines per file. |
| PlannerTools.EntryLines | app/chat/planner/tools.js:60 | Three newline-free lines per file. |
| PlannerTools.JoinEntryLines | app/chat/planner/tools.js:60-64 | Joining the per-file lines gives the same text as joining the entries. |
| PlannerTools.PlannerSearchResult | app/chat/planner/tools.js:67-83 | No hits gives "No results found". With hits and not filenamesOnly, the serialised hits. |
| PlannerTools.PlannerSearchCode | app/chat/planner/tools.js:66-83 | The search is asked for 30 results with filenamesOnly and for 10 otherwise, and its results are shaped by PlannerSearchResult. |
| PlannerTools.FilenamesOnlyLines | app/chat/planner/tools.js:74-77 | With filenamesOnly, the lines are exactly the hit paths deduplicated in first-seen order. Every hit's path is among them, and nothing else is. |
| ResearchAgents.MaxSteps | app/chat/planner/researchAgent.js:45 | A missing or zero maxSteps gives 4; any other value is used as given. The default of 4 is set at line 4. |
| ResearchAgents.CacheKeySeparatesItems | app/chat/planner/researchAgent.js:166-174 | Two different item names never share a cache key within one project. |
| ResearchAgents.FormatTools | app/chat/planner/researchAgent.js:40-44 | One entry per tool, in order, keeping only name, description and parameters. |
| ResearchAgents.OutputTool | app/chat/planner/researchAgent.js:55 | The forced tool is `output`, with the item's output format as its properties. |
| ResearchAgents.StepParams | app/chat/planner/researchAgent.js:49-60 | The last step forces the `output` tool. Every earlier step offers all formatted tools with tool_choice `required`. Both carry the messages so far. |
| ResearchAgents.FindPlannerTool | app/chat/planner/researchAgent.js:121 | A found tool is in the list and has the name. None means no tool has it. |
| ResearchAgents.ToolMessages | app/chat/planner/researchAgent.js:120-138 | A known executable tool adds exactly two messages: the assistant's function call with serialised arguments, then the function result. Anything else adds none. |
| ResearchAgents.ToolMessagesCount | app/chat/planner/researchAgent.js:120-138 | Two messages for a runnable call, none otherwise. |
| ResearchAgents.ExecutedMessagesCount | app/chat/planner/researchAgent.js:110-138 | Executing a list of calls adds twice as many messages as it has runnable calls. |
| ResearchAgents.OutputCallAddsNothing | app/chat/planner/tools.js:42-49 | An `output` call never produces messages, because `output` is not executable. |
| ResearchAgents.FirstOutput | app/chat/planner/researchAgent.js:111-113 | The index of the first `output` call, or -1 when there is none. |
| ResearchAgents.AdditionalContext | app/chat/planner/researchAgent.js:148-153 | Empty exactly when the chat's task context is falsy; otherwise that context wrapped in `<additionalContext>` tags. |
| ResearchAgents.PotentiallyRelevantFiles | app/chat/planner/researchAgent.js:159-164 | Empty exactly when the list is missing or empty; otherwise the paths one per line inside the tags. |
| ResearchAgents.PotentiallyRelevantFilesLines | app/chat/planner/researchAgent.js:163 | The lines are the opening tag, each path, and the closing tag. |
| ResearchAgents.InformationSource | app/chat/planner/researchAgent.js:86-89 | A name resolves exactly when it is one of the agent's five information methods. |
| ResearchAgents.AllSources | app/chat/planner/researchAgent.js:86 | Succeeds with one text per name, in order, unless some name does not resolve. |
| ResearchAgents.AdditionalInformationText | app/chat/planner/researchAgent.js:81-91 | No information gives "". One source gives that source. A list gives its non-empty texts joined by blank lines, or fails if a name does not resolve. |
| ResearchAgents.InitializeMessages | app/chat/planner/researchAgent.js:80-108 | On success the seed is exactly a system message and a user message. The system message is the template with description, directory and information filled in, and the user message is the item's prompt. |
| ResearchAgents.ResearchAgent.constructor | app/chat/planner/researchAgent.js:24-27 | No messages, no calls, the given cache and the system template. |
| ResearchAgents.ResearchAgent.ExecuteToolAndUpdateMessages | app/chat/planner/researchAgent.js:120-138 | The messages grow by exactly ToolMessages of the call. |
| ResearchAgents.ResearchAgent.HandleToolCalls | app/chat/planner/researchAgent.js:110-118 | The calls before the first `output` call are executed in order, and that call's arguments are returned. Later calls are not executed. With no `output` call every call is executed and nothing is returned. |
| ResearchAgents.ResearchAgent.Step | app/chat/planner/researchAgent.js:48-75 | One model call, with the parameters StepParams prescribes. The step settles StepOutcome of the answer: the truthy arguments of its first `output` call. The messages grow by StepMessages: the tool messages of the calls before that `output` call, or the answer's non-empty text when it has no tool calls. A settled result is cached when the item is cacheable; otherwise the cache is unchanged. |
| ResearchAgents.ResearchAgent.RunSteps | app/chat/planner/researchAgent.js:47-77 | Every call made has the shape StepParams prescribes and carries the conversation the earlier steps left (Chained). The result is None exactly when no step settled anything, and then exactly maxSteps calls were made and the cache is unchanged. Otherwise it is the outcome of the last call made, no earlier step having settled, within maxSteps calls, and is cached only for a cacheable item. |
| ResearchAgents.ResearchAgent.StartResearch | app/chat/planner/researchAgent.js:34-77 | Fails without a model call exactly when the seed messages cannot be built. Otherwise the steps start from the InitializeMessages seed and the result is as for RunSteps. |
| ResearchAgents.ResearchAgent.ExecuteResearch | app/chat/planner/researchAgent.js:29-78 | A cacheable item with a truthy cached value returns it with no model call and no change. Otherwise as StartResearch: the result is the first settled `output` arguments of the steps run from the seed, or None, and the cache is written only under `path-name` and only for a cacheable item. |
| Agents.ParseArguments | app/chat/agent.js:94-109 | Parsed JSON when parsing succeeds. On failure a shell command falls back to an object, and any other tool fails with the parse error. |
| Agents.ShellFallback | app/chat/agent.js:101-105 | Unparseable shell arguments become an object whose `command` is the raw text. |
| Agents.ValidateFileName | app/chat/agent.js:188-198 | True exactly when arguments are present, parse, and hold a non-blank string `fileName`. It throws exactly when present arguments do not parse or parse to a primitive. |
| Agents.WaitForDecision | app/chat/agent.js:17-37 | The user is asked exactly when the global setting and the tool's flag both require approval, and the answer is theirs. Otherwise the result is true. With approval on, an unknown tool name throws. |
| Agents.GateOnlyForWritingTools | app/chat/agent.js:19 | Approval is asked exactly when the setting is on and the tool writes files or runs commands. |
| Agents.ToolsExecutable | app/tools/tools.js:11-177 | Every defined tool has an execute function. |
| Agents.RunTool | app/chat/agent.js:77-83 | An unknown tool fails with "Tool with name ... not found."; a known one runs. |
| Agents.FolderEntry | app/chat/agent.js:127-131 | `- ` followed by the name, with a `/` added for a directory. |
| Agents.FolderEntries | app/chat/agent.js:124-132 | One entry per directory item, in readdir order, marked as a directory exactly when its stat says so. |
| Agents.Agent.ListEntries | app/chat/agent.js:124-132 | When every stat succeeds the loop builds exactly FolderEntries of the listing. Otherwise it stops at the first name whose stat rejects and reports that name. |
| Agents.FirstUnstatted | app/chat/agent.js:124-126 | The first name whose stat rejects: every earlier name was statted. |
| Agents.FirstUnstattedAt | app/chat/agent.js:124-126 | A rejecting name after an all-statted prefix is the first rejecting name. |
| Agents.FolderListingLines | app/chat/agent.js:134-143 | No entries gives "directory is empty". Up to 30 entries gives one per line. More gives the first 30 lines, then `... and more`. |
| Agents.Agent.GetFolderStructure | app/chat/agent.js:111-144 | A failed readdir adds one error message naming the directory and settles on Unreadable. A rejecting stat (outside the try) rejects the whole call at the first such name. Otherwise the listing is returned. The chat is untouched except for the readdir error. |
| Agents.FunctionCallPreviewAsWritten | app/chat/agent.js:179-181 | Succeeds exactly when the arguments parse and the tool name is a member a promise inherits (`then`, `constructor`, `toString`, ...). Then the text is the reply text or "undefined", then "undefined". For any other parseable call it fails, because the mapping is indexed on a promise; the error names `code` when the reply has text and `message` otherwise, the first property the template reads. |
| Agents.NoToolIsPromiseMember | app/tools/tools.js:11-177 | No defined tool is named after a member a promise inherits. |
| Agents.PromiseMemberCallRunsNoTool | app/chat/agent.js:68-88 | A call named after an inherited promise member, with a valid file name, runs no tool: callFunction answers that the tool was not found. |
| Agents.FunctionCallPreview | app/chat/agent.js:179-181 | Succeeds exactly for parseable arguments of a defined tool. The text is the message content (or else the preview message) followed by the preview code. |
| Agents.PreviewLookupMissesEveryTool | app/chat/agent.js:180 | For every defined tool with parseable arguments, the preview as written fails and the corrected one succeeds. |
| Agents.ShellPreviewShowsCommand | app/chat/agent.js:101-105 | An unparseable shell command previews as the shell heading and the raw text in a console block. |
| Agents.AddResponseToChat | app/chat/agent.js:170-184 | Content adds a linked pair of messages. A function call adds the preview and the assistant's call record, or stops with the preview's error. As written (line 180) building the preview fails for every defined tool and succeeds, showing "undefined", only for names a promise inherits; as intended it is looked up by tool name. Both lists grow by exactly what the response prescribes. |
| Agents.ShowText | app/chat/agent.js:174-176 | Truthy content is added as an assistant backend message with a linked display message; falsy content adds nothing. |
| Agents.ShowCall | app/chat/agent.js:178-183 | A call with a preview adds one display message and one backend message carrying the call. |
| Agents.ShowFunctionCall | app/chat/agent.js:181-182 | Exactly one display message with the preview text, then one backend message with the call, under the next two ids. |
| Agents.Answer | app/chat/agent.js:84-90 | A tool's result passes through. A tool error becomes "Error: message" plus an error notice. |
| Agents.CallFunctionResult | app/chat/agent.js:68-92 | Fails before running anything exactly when the file-name check does not pass. Otherwise the Answer of running the tool. |
| Agents.CallFunctionNeverThrowsFromTools | app/chat/agent.js:77-91 | Once validated, tool failures and unknown tools come back as `Error: ...` strings and never throw. |
| Agents.SchemaArgumentsFailValidation | app/chat/agent.js:68-71 | Arguments that keep to the called tool's schema never pass the file-name check, so callFunction throws "File name is not provided or invalid." before running anything. |
| Agents.CallFunction | app/chat/agent.js:68-92 | Returns CallFunctionResult's answer. It adds one error display message exactly when the tool failed. |
| Agents.RecordRejection | app/chat/agent.js:57-60 | Adds "Action was rejected" as an error display message and "User rejected function call" as a user backend message. |
| Agents.RunApprovedCall | app/chat/agent.js:49-56 | A non-empty result is added as a function message named after the tool, and processing continues. An empty result adds nothing and stops loading. |
| Agents.Agent.constructor | app/chat/agent.js:9-15 | Working directory is the home directory and there is no pending decision. |
| Agents.Agent.HandleFunctionCall | app/chat/agent.js:46-61 | On a gate error the lists are unchanged. On rejection the two rejection messages are added. On approval it behaves as RunApprovedCall. The pending decision is cleared. |
| Agents.Agent.RunAgent | app/chat/agent.js:39-66 | Does nothing when stopped or without a response. A response without a call is only shown. As written a function call fails at the preview unless its name is a member a promise inherits; such a call can only continue with the not-found answer, so no tool runs. Rejections and continuations happen only on the matching gate decision. |
| OpenAIModels.ApplyDelta | app/models/openai.js:76-87 | The delta's index gains a slot if it had none. Every other slot is untouched. |
| OpenAIModels.DeltasSnoc | app/models/openai.js:76 | Applying one more delta is one more ApplyDelta. The length grows to cover the delta's index. |
| OpenAIModels.AccumulatedSlots | app/models/openai.js:75-89 | A slot exists exactly when it existed before or some delta names its index. Its arguments are the old arguments followed by every fragment for that index, in order. Its name is the last non-empty name fragment, or the old name. |
| OpenAIModels.MentionsSnoc | app/models/openai.js:77 | An index is named by the deltas so far plus one exactly when it was named before or the new delta names it. |
| OpenAIModels.LastFragmentSlot | app/models/openai.js:81-86 | The step case of AccumulatedSlots for the index the newest delta names. |
| OpenAIModels.NoFragments | app/models/openai.js:84-86 | An index no delta names gets no argument text. |
| OpenAIModels.NoName | app/models/openai.js:81-83 | An index no delta names keeps its name. |
| OpenAIModels.ApplyDeltasCompose | app/models/openai.js:54-62 | Accumulating two batches one after the other equals accumulating their concatenation. |
| OpenAIModels.SlotArray | app/models/openai.js:78-80 | The sparse array the accumulator holds: a call at each filled index and a hole at every other index below the length. |
| OpenAIModels.SlotsWithin | app/models/openai.js:78 | Every filled index stays below the array length. |
| OpenAIModels.ToolCallAccumulator.constructor | app/models/openai.js:52 | Starts with no slots and length 0. |
| OpenAIModels.ToolCallAccumulator.AccumulateOne | app/models/openai.js:77-86 | The slots become ApplyDelta of the old slots, and the length covers the delta's index. |
| OpenAIModels.ToolCallAccumulator.Accumulate | app/models/openai.js:75-89 | The slots become ApplyDeltas of the old slots over the whole batch, and the length covers every index. |
| OpenAIModels.ParseJsonSafely | app/models/openai.js:122-133 | Objects come back unchanged. Text is parsed, and a parse failure gives the fixed "Failed to parse response" error. |
| OpenAIModels.NonNull | app/models/openai.js:113 | Keeps exactly the non-null entries. |
| OpenAIModels.NonNullAppend | app/models/openai.js:113 | Dropping nulls commutes with concatenation, so order is kept. |
| OpenAIModels.ParseCalls | app/models/openai.js:114-119 | Succeeds exactly when every call's arguments parse. It then keeps each call's name and parsed arguments, in order. |
| OpenAIModels.FormattedToolCalls | app/models/openai.js:109-120 | Null exactly for absent or empty input. Otherwise the non-null calls in order with parsed arguments, or the parse error. |
| OpenAIModels.OnlyNullsGiveEmptyList | app/models/openai.js:110-113 | A non-empty list of holes gives an empty list, not null. |
| OpenAIModels.OpenAiToolFormat | app/models/openai.js:135-140 | An object with exactly `type: "function"` and the tool under `function`. |
| OpenAIModels.FormatTools | app/models/openai.js:92 | One wrapped tool per tool, in order. The streaming path maps the tools the same way at line 38. |
| OpenAIModels.ForceFirstTool | app/models/openai.js:93 | Forcing the first tool fails exactly when there is no tool. |
| OpenAIModels.OpenAiCall | app/models/openai.js:25-42 | The call does not stream exactly when a tool is given or tool_choice is `required`. The streaming path without a tools list throws. The model defaults to the instance's. A given tool_choice is kept, and otherwise a single tool is forced. The forced first tool comes from lines 91-93. |
| OpenAIModels.StreamSnoc | app/models/openai.js:54-62 | Each stream part extends the text and the delta list by its own content. |
| OpenAIModels.Stream | app/models/openai.js:44-73 | The content is every text fragment in order. The tool calls are the formatted accumulation of every delta. |
| AnthropicModels.NewClient | app/models/anthropic.js:7-25 | maxTokens is 8192 for `claude-3-5-sonnet-20240620` and 4096 otherwise. The beta header is set exactly in the 8192 case. Retries are 5, and the base URL is set exactly when one is given. |
| AnthropicModels.SystemPrompt | app/models/anthropic.js:29-32 | None exactly when no message is a system message. Otherwise the content of the first system message. |
| AnthropicModels.ImageDataOfDataUrl | app/models/anthropic.js:74 | The image data is the text between the first and the second comma of the URL, or after the first comma when there is no second. |
| AnthropicModels.ImageDataWithoutComma | app/models/anthropic.js:74 | A URL without a comma has no data (`undefined`). |
| AnthropicModels.FormatPart | app/models/anthropic.js:55-77 | A text part passes through. An image part becomes a base64 image with its media type and URL data. |
| AnthropicModels.FormatUserMessages | app/models/anthropic.js:49-66 | One formatted message per user message, in order. |
| AnthropicModels.UnchangedAreUserMessages | app/models/anthropic.js:63-64 | A message passed through unchanged is a user message of the input with string content. |
| AnthropicModels.PartsKeepTheirText | app/models/anthropic.js:52-61 | An array content keeps its length, and its text parts pass through unchanged. |
| AnthropicModels.FormatUserMessagesAppend | app/models/anthropic.js:50-51 | Formatting distributes over concatenation, so the order of messages is kept. |
| AnthropicModels.AnthropicToolFormat | app/models/anthropic.js:130-136 | `parameters` is renamed to `input_schema`, and every other field is kept with nothing added. |
| AnthropicModels.ToolFormatRoundTrip | app/models/anthropic.js:130-136 | Renaming back gives the original tool when it had no `input_schema`. |
| AnthropicModels.FormatTools | app/models/anthropic.js:99 | One renamed tool per tool, in order. The streaming path maps the tools the same way at line 43. |
| AnthropicModels.AnthropicCall | app/models/anthropic.js:27-47 | The call does not stream exactly when a tool is given or tool_choice is `required`. The streaming path without a tools list throws. It carries the first system message, the user messages and maxTokens. On the tool path the choice is `{type:'any'}` for `required` and otherwise forces the first tool. The tool choice comes from lines 98-100. |
| AnthropicModels.GivenChoiceIgnoredOnToolPath | app/models/anthropic.js:100 | On the tool path, any tool_choice other than `required` gives the same request. The choice is first set at lines 37-41. |
| AnthropicModels.FirstText | app/models/anthropic.js:109 | The first text block's text, or "" when there is none. The streaming path reads the text the same way at line 93. |
| AnthropicModels.ToolUses | app/models/anthropic.js:114-128 | Exactly the `tool_use` blocks, in order, as name and input. The result is a list, possibly empty, and never null. |
| AnthropicModels.ToolUsesFromBlocks | app/models/anthropic.js:115 | Every call comes from a tool-use block of the reply. |
| AnthropicModels.FormattedToolCalls | app/models/anthropic.js:114-128 | The loop builds exactly ToolUses of the content. |
| AnthropicModels.ReadReply | app/models/anthropic.js:88-111 | The reply's text is FirstText and its calls are ToolUses. Usage is input plus output tokens. |
| Embeddings.MappedLanguage | js/code_embeddings.js:147 | No detected language maps to `other`. A language in the mapping maps to its splitter, never `other`. The mapping itself is at lines 15-32. |
| Embeddings.UnknownLanguageIsOther | js/code_embeddings.js:147 | A detected language maps to `other` exactly when the mapping lacks it. |
| Embeddings.ToRecords | js/code_embeddings.js:151-162 | One record per chunk, in order, tagged with the file and hash. |
| Embeddings.CodeEmbeddings.constructor | js/code_embeddings.js:102 | The store starts empty. |
| Embeddings.CodeEmbeddings.FindRecords | js/code_embeddings.js:191-201 | Exactly the records whose path is the given one. |
| Embeddings.CodeEmbeddings.IsEmbeddedAndCurrent | js/code_embeddings.js:170-182 | False when the file has no records. True only when some record of the file carries the hash, and true whenever all its records do. |
| Embeddings.CodeEmbeddings.DeleteRecords | js/code_embeddings.js:204-210 | The store loses exactly that file's records and keeps the rest in order. |
| Embeddings.DeleteRecordsEffect | js/code_embeddings.js:204-210 | Afterwards the file has no records, and every other file's records are unchanged. |
| Embeddings.NothingToDelete | js/code_embeddings.js:204-210 | Deleting a file that has no records changes nothing. |
| Embeddings.CodeEmbeddings.DeleteEmbeddingsForFilesNotInList | js/code_embeddings.js:185-188 | The store keeps exactly the records of listed files, in order. |
| Embeddings.PruneEffect | js/code_embeddings.js:185-188 | Every remaining record's path is listed. A listed file keeps all its records, and an unlisted one keeps none. |
| Embeddings.CodeEmbeddings.UpdateEmbedding | js/code_embeddings.js:102-167 | An unreadable or non-text file, or an unchanged hash, leaves the store as it is. Otherwise the file's old records are removed, and the new chunks are appended when splitting and embedding succeed. |
| Embeddings.CurrentAfterUpdate | js/code_embeddings.js:126-162 | After a successful re-embedding the file counts as current for the new hash. |
| Embeddings.Candidates | js/code_embeddings.js:225-237 | Every candidate is a hit with score at least the minimum and more than 5 characters of content, formatted with its relative path. |
| Embeddings.FirstN | js/code_embeddings.js:241-258 | A prefix of at most `limit` results, exactly `limit` long when enough exist. |
| Embeddings.Rerank | js/code_embeddings.js:262-287 | Without rankings the results come back unchanged. Otherwise exactly the in-range indexes, in the model's order, each mapped to its result. |
| Embeddings.Search | js/code_embeddings.js:213-259 | No hits gives none. At most `limit` results, each a candidate. The result is the first `limit` of the reranked candidates when reranking is asked for and yields something, and of the candidates otherwise. |
| Embeddings.SearchResultsQualify | js/code_embeddings.js:225-228 | Every result comes from a hit with score at least the minimum and content longer than 5 characters. |
| Controller.KeyIndex | app/chat_controller.js:20-32 | Every setting key has a position among the eleven default keys. |
| Controller.LoadedSettings | app/chat_controller.js:51-57 | Every key is loaded, each with its stored value when one is defined and its default otherwise. Each value is read at lines 118-122. |
| Controller.ChatController.LoadSetting | app/chat_controller.js:118-122 | Returns the stored value when defined, else the default. It records that value under the key and changes no other setting. |
| Controller.ChatController.LoadAllSettings | app/chat_controller.js:51-57 | Afterwards every key holds its loaded value. |
| Controller.ProviderOfFinds | app/chat_controller.js:75-77 | No provider exactly when no option has the selected model. Otherwise the provider of the first option with that model. |
| Controller.CreateModelRouting | app/chat_controller.js:70-105 | Anthropic uses the Anthropic key and client. OpenRouter uses its key, the fixed OpenRouter URL and headers. Anything else uses `apiKey` and the configured `baseUrl`. No model is made exactly when the chosen key is empty. |
| Controller.ChatController.InitializeModel | app/chat_controller.js:59-68 | A fresh abort controller, then the large and the small model created from the selected names. |
| Controller.ChatController.constructor | app/chat_controller.js:35-49 | Settings are loaded from storage and both models created from them. Both flags are false, usage is empty, and the chat is new and empty. |
| Controller.AddUsage | app/chat_controller.js:210-215 | Zero usage changes nothing. Otherwise the model's total grows by the amount, starting from 0, and other models are untouched. |
| Controller.UsageIsSum | app/chat_controller.js:210-215 | After any sequence of reports, a model has an entry exactly when it reported non-zero usage. Its entry is the sum of its reports. |
| Controller.ChatController.UpdateUsage | app/chat_controller.js:210-215 | Usage becomes AddUsage of the old usage. |
| Controller.ChatController.HandleError | app/chat_controller.js:135-145 | stopProcess is always reset. When aborted, the abort controller is replaced and the aborted notice is shown; otherwise the error's message is shown. Exactly one display message is added. |
| Controller.ChatController.RecordQuery | app/chat_controller.js:181-186 | An empty query changes nothing. A non-empty one adds one user backend message, and the linked display message only when rendering. The id counter and the latest backend id move accordingly. |
| Controller.ChatController.CallModel | app/chat_controller.js:194-205 | The reply is returned when there is one, and then the display, the counter and the abort state are unchanged. A failure returns nothing, shows HandleError's notice as the only new display message, clears any stop request and leaves the abort signal clear. |
| Controller.ChatController.GuardedCall | app/chat_controller.js:188-205 | A running call makes this one clear the flag and return AlreadyProcessing with nothing shown. Otherwise CallModel: the reply, or the error notice. |
| Controller.ChatController.ProcessQuery | app/chat_controller.js:181-205 | Records the query. If already processing, it clears the flag and returns. Otherwise it calls the model. The display gains the rendered query, then the error notice exactly when the model was called and failed. The backend gains only the query. |
| Controller.ChatController.Process | app/chat_controller.js:164-208 | The outcome is ProcessOutcomeOf the guards and the reply: no model, stopped, already processing or called. Without a model only the no-key error is shown; when stopped nothing changes; otherwise the display gains the rendered query and, on a failed call, the error notice, and the backend gains the query. The abort state changes only on a failed call. |
| Controller.NewMessageRoute | app/chat_controller.js:259 | The planner runs first exactly when the chat is empty or holds only images. |
| Controller.ChatController.ProcessNewUserMessage | app/chat_controller.js:258-268 | The route is NewMessageRoute. Planning first processes with no query, a follow-up processes the message. The outcome and the display are those of Process for that query; the process call adds nothing to the backend list when planning first. |
| Seqs.JsIndex | js/chat.js:69 | A splice start as JavaScript reads it: an in-range index is kept, and a negative one counts from the end. |
| Seqs.DedupFromAppend | app/chat/chat_context_builder.js:294 | Deduplicating a concatenation is deduplicating the first part, then the second part minus what the first contained. |
| Text.PadStart | app/chat/chat_context_builder.js:409 | `padStart`: at least the width long, spaces on the left, and the string at the end. |
| Text.ReplaceFirst | app/tools/tools.js:351 | `replace` with a string pattern: only the first occurrence is replaced, and a string without it is unchanged. |
| Text.Split | app/chat/chat_context_builder.js:407 | `split` on one character gives at least one piece, and no piece holds the separator. |
| Text.JoinSplit | app/chat/chat_context_builder.js:407-412 | Joining the pieces of a split with the separator gives back the string. |
| Text.SplitJoin | app/tools/tools.js:341-345 | Splitting a join of separator-free pieces gives back the pieces. |

## Left out

- User interface, DOM, Electron IPC, loading indicators, logging and `renderSettingValueInUI` are not modelled.
- Concurrency is not modelled:
  - `Promise.all` fan-out is modelled as sequential, in input order;
  - the fire-and-forget summary compression is an explicit later step;
  - the 200 ms polling in `waitForDecision` becomes the user's answer as a parameter.
- Floating point is not modelled. Similarity scores are `real`, because only `>=` is used on them.
- Strings are sequences of characters:
  - no UTF-16 code units;
  - no regular expressions beyond the fixed patterns modelled here (`<changes_made_to_file>` stripping, the leading `[` and trailing `]` of a summary);
  - no `$`-patterns in `String.replace` replacements.
- `app/chat/chat.js` is not part of this model. `js/chat.js` is modelled in its place, so these come in as parameters:
  - `countOfUserMessages`;
  - `onlyHasImages`;
  - the task plan;
  - the task context.
- The model lists (`MODEL_OPTIONS`, `SMALL_MODEL_OPTIONS`, custom models) and the default model names come from a configuration module that is not part of this model. They are parameters.
- Controller.Provider: provider names other than Anthropic and OpenRouter are one `OtherProvider` case, because only those two are compared.
- Controller.ChatController.constructor: performs `loadAllSettings` and `initializeModel` in one step, creating the chat alongside. The remaining sub-objects (terminal, browser, task tab, custom models manager) are not modelled.
- Controller.ChatController.Process: ends with the model's reply. The follow-on `runAgent` call is `Agents.Agent.RunAgent`, and the two are not composed into one method. Building the messages for the call is not modelled here either; that is the context builder's job.
- Controller settings: keys are the eleven keys of `DEFAULT_SETTINGS`; `saveSetting` and `requestStopProcess` (a timer) are not modelled.
- `submitMessage`, URL fetching, `clearChat`, chat history save and load, and `updateStreamingMessage` are user-interface paths and are not modelled.
- ContextBuilder: these are not modelled:
  - `processTaskContext` (it reads the plan from `app/chat/chat.js`);
  - `projectStateToText` and `relevantSourceCodeInformation` (terminal and project controller);
  - `addReflectMessage` (the reflection text is a parameter of `AssembleUserMessage`).
- ContextBuilder.ChatContextBuilder.AddSystemMessage: the plan classifier's answer is the `needsPlan` parameter.
- ContextBuilder.InteractionFiles: models the code as written, where each tool call's argument string goes to `parseArguments` as if it were a call record. The scan therefore throws as soon as a newer assistant message has a tool call, and otherwise finds nothing.
- The file-existence and directory filter behind `InteractionFiles` is not modelled separately, because no path reaches it.
- Agents: `smartContext.updateContext`, `updateProjectState` and the agent's own `projectStateToText` are not modelled. They depend on the smart-context module and the terminal.
- Agents.ValidateFileName: `validateFileName` sits outside the class at `app/chat/agent.js:188-198`, which is a syntax error. It is modelled as the method it was evidently meant to be.
- Tools: the `browser` tool's page handling, the diff generation and `openFileLink` are parameters. `searchCode`'s back end is a parameter.
- Tools.PlanningTools: `planningTools` always fails, because `task_planning_done` is not in the tool table (`app/tools/tools.js:509`). It is modelled as written.
- Tools.ApprovalFlags: the search tool's flag is spelled `requiresApproval` (`app/tools/tools.js:150`), so search never asks for approval. It is modelled as written.
- ResearchAgents.InformationSource: `researchItems.js` names a `taskContext` source that is not a method of the agent. It is modelled as a failure.
- ResearchAgents.PotentiallyRelevantFiles: `potentiallyRelevantFiles` reads `potentially_relevant_files`, while the planner items declare `potentially_related_files`. The model takes the list as given.
- ResearchAgents: the choice between the large and the small model (`usesLargeModel`) is recorded, but the two models are one `respond` oracle.
- ResearchAgents: the result cache is a map held by the agent, not the shared node-cache instance.
- OpenAIModels: the client's network call and stream are parameters, as is `streamCallback`. Temperature is passed through unmodelled.
- AnthropicModels: the streamed text callback and `abort` are not modelled. `updateUsage` is called by the caller with the usage `ReadReply` returns.
- AnthropicModels.FormatUserMessages: a user message with array content is rebuilt with only its role and content. This matches the source, which builds a new object there.
- AnthropicModels.AnthropicCall: on the tool path any tool_choice other than `required` is overridden by forcing the first tool. It is modelled as written (`GivenChoiceIgnoredOnToolPath`).
- Embeddings: `splitCodeIntoChunks` and `addDocuments` are a parameter and a flag. Saving and loading the store are not modelled.
- Embeddings.CodeEmbeddings.UpdateEmbedding: a changed file whose new chunks fail to split or embed loses its old records. This is modelled as written.
- Embeddings.Rerank: takes the model's answer as a list of integers. Non-integer keys that `index in searchResults` would accept are not modelled.
- ChatStore: `js/chat.js:63` gives every project-state message id 1, so ids repeat (`ProjectStateRepeatsId`). The id invariant in `Chat.Valid` therefore exempts id 1.
- ContextBuilder.ChatContextBuilder.GetChatInteractionFiles: takes a `Reading`. As written it stores the last index of the list as the scan mark (line 319); as intended, the newest id scanned. Both are modelled, and `GetListOfRelevantFiles` passes the choice on.
- ContextBuilder.ChatContextBuilder.ReduceRelevantFilesContext: takes a `Reading`. As written it returns the contents of every ranked file (line 350); as intended, only those of the seven kept. The kept list is the same in both.
- Agents.AddResponseToChat: takes a `Reading`. As written the preview lookup indexes a promise (line 180), so a reply calling any defined tool fails after its text is shown; only a name the promise inherits (`then`, `toString`, ...) yields a preview, shown as "undefined". As intended the preview is looked up by tool name.
- Agents.Agent.RunAgent: takes the same `Reading`. As written every call of a defined tool ends in the error path. A name a promise inherits passes the preview and reaches the gate and `callFunction`, which answers that no such tool exists; so no tool runs as written.
- ResearchAgents: the planner tools' `execute` oracle always returns a string. In the source an exception from `executeFunction` (`app/chat/planner/researchAgent.js:123`) is not caught, so it rejects `handleToolCalls` and `executeResearch`; that failure path is not modelled.
- Tools.Parameters: the tool schemas keep only each property's type. Property descriptions, `required` lists and enums are not modelled, because no modelled behaviour reads them.
- OpenAIModels: the `usage` object of the streamed and the tool-use results (`app/models/openai.js:68-71`, `app/models/openai.js:102-105`) is not modelled. It comes from token counting and from the client's response.
- Tools.UnifiedSearchResult: the Google back end (`googleSearch`) is a parameter, like the codebase search; its network call is not modelled.
- ChatStore: `updateStreamingMessage` and the rendering helpers of `js/chat.js` (`js/chat.js:116-134`) are not modelled. `addTask` and `countOfUserMessages` belong to `app/chat/chat.js`, which is not part of this model.

- Controller.ChatController.ProcessNewUserMessage: `this.chat.addTask(userMessage)` and `new Planner(this).run(userMessage)` (`app/chat_controller.js:262-263`) are not modelled; `app/chat/chat.js` and the planner are not part of this model. The backend-list guarantee on the planning route is about the `process()` call alone.
- Controller.ChatController.HandleError: the aborted branch is modelled as written, but nothing in the model sets `aborted`. In the source `abort()` replaces the abort controller right after aborting it (`app/models/openai.js:142-144`, `app/models/anthropic.js:138-140`), so the signal `handleError` reads is never aborted and the branch cannot fire.
- Agents.CallFunctionResult: no tool schema declares `fileName`, so a call whose arguments keep to its schema always throws the file-name error (`SchemaArgumentsFailValidation`). This is modelled as written; which check the authors meant is not evident from the code.
- ResearchAgents.ResearchAgent.Step: the model call is a total `respond` oracle. In the source `this.model.call` (`app/chat/planner/researchAgent.js:60`) is not caught, and `this.model` is null when the chosen small model has no key (`app/chat/planner/researchAgent.js:37`, `app/chat_controller.js:95`); either way `executeResearch` rejects. That rejection is not modelled.
- ResearchAgents.ResearchAgent.RunSteps: because the model call never rejects here, `None` means only that no step settled; a rejecting model call, which ends the loop with a rejection in the source, is not modelled.
- ResearchAgents.ResearchAgent.StartResearch: fails only when the seed messages cannot be built; the rejecting or missing model of `Step` is not modelled.
- ResearchAgents.ResearchAgent.ExecuteResearch: on a cache miss the rejecting or missing model of `Step` is not modelled, so this path cannot reject as the source's can.

## Findings

| source | as written | input that shows it | evidently intended | confidence | as-written member | corrected member |
|---|---|---|---|---|---|---|
| app/chat/agent.js:180 | `previewMessageMapping(args)[functionCall.name]` passes the arguments as the tool name. It indexes the returned promise, so for every defined tool the preview is `undefined` and reading `.message` (or `.code`, when the reply has text) throws; only names the promise inherits, such as `then`, give a preview, shown as "undefined". | any assistant reply with a function call whose arguments parse, e.g. `read_file` with `{"targetFile":"a"}` | `(await previewMessageMapping(functionCall.name, args))`, showing the reply text or the preview message, then the preview code | not executed | Agents.FunctionCallPreviewAsWritten | Agents.FunctionCallPreview |
| app/chat/chat_context_builder.js:350 | after keeping 7 ranked files, the contents of every ranked file are read back | a ranking of 8 files `a`..`h`: file `h` is read back but not kept | read back only the 7 files kept at line 349 | not executed | ContextBuilder.ReducedFilesAsWrittenOverflows | ContextBuilder.ReducedFilesMatchKept |
| app/chat/chat_context_builder.js:319 | the scan mark stores the last array index, while line 305 compares it with message ids | messages with ids 2 and 3: the mark becomes 1, so both are scanned again | store the newest message id seen | not executed | ContextBuilder.ScanMarkAsWrittenRescans | ContextBuilder.ScanMarkSeesNothingTwice |
| app/chat/chat_context_builder.js:95 | `FINISH_TASK_PROMPT_TEMPLATE` is not exported by `app/static/prompts.js:147-150`, so the addendum reads `undefined` | any system message with more than 7 backend messages or a task that is not complex | append the finish-task template | not executed | ContextBuilder.FinishAddendumAsWrittenIsUndefined | ContextBuilder.FinishAddendum |
