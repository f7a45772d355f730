# Code-review assistant backend — a Dafny model

This project models the core of a retrieval-augmented code-review assistant. The assistant
answers questions about one pull request (PR) at a time. Each PR has its own vector index,
made of several named collections (PR data, source code, requirements). A conversation lives
in an in-memory session. A session remembers its PR, its mode (`co_reviewer` or
`interactive_assistant`), its chat history and whether the initial review has been produced.

The model covers two request paths and the offline PR preparation step:

- **Chat service** (`ChatService`). It resolves or creates the session and checks the API
  key. The first co-reviewer turn is replaced with the standard initial-review request. It
  then asks the language model for a collection plan, queries each planned collection, and
  synthesises an answer by mode. Finally it records the turn in the session history.
- **Agent service** (`AgentServices`, `Agent`, `Tools`). It finds or creates the session,
  then asks the language model which tools to run. It extracts the JSON tool selection from
  the reply and runs the selected registered tools in order. These are `rag_search`,
  `collection_planner`, `pr_summary`, `file_analysis` and `response_synthesis`. It then
  synthesises a response from the tool results, or falls back to the model's raw reply.
- **Retrieval gateway** (`RagUtils`) and **session store** (`Sessions`). These cover index
  loading, planning with validation against the available collections, querying one
  collection, provenance records, and the two synthesis functions.
- **PR preparation** (`FetchPrData`). It splits each file's unified diff into hunks,
  summarises each file, and totals the PR.

The language model, `json.loads`, the two regular expressions, the index directories on
disk and the `OPENAI_API_KEY` variable are parameters, bundled in `Schemas.Externals`. A
prompt is recorded by the inputs it is built from (`Schemas.Prompt`), not by its wording.
Mutable state keeps its shape: `Sessions.SessionManager` holds a map of `SessionData`
objects whose history and flag methods update in place, and `Agent.BaseAgent` holds its
tool list. Each loop of the source is a method proved equal to a specification function.
The properties are proved about those functions.

Where the code differs from the behaviour described for the system, the model follows the
code, with one exception: the agent's response synthesis is wrong as written (see
"## Findings"), so `Agent.AgentRun`, which `Agent.BaseAgent.ProcessRequest` and the agent
service use, runs the corrected synthesis, and `Agent.AgentRunAsWritten` runs the code as
written. Otherwise:

- No cap is placed on the chat history.
- A loaded index lists every collection of the vector database, including those whose
  storage failed to load. Only the query engines are restricted to the loaded ones.
- The agent's fallback response keeps the tools recorded before the failure, instead of an
  empty list.
- A chat turn appends the effective query to the history twice: once before retrieval and
  once more with the answer.

`src/services/chat_service.py` calls `get_session`, `create_session_id`, `store_session`,
`set_initial_review_generated` and `update_session_history` on the imported
`session_manager` module. That module defines only the `SessionManager` class. The model
reads these calls as calls on one shared `SessionManager`, which
`ChatService.ProcessChatRequest` receives as a parameter.

## Model

| member | source | states |
|---|---|---|
| Common.Get | src/core/rag_utils.py:163 | `dict.get`: the result is absent exactly when no entry has the key, and a present result is the value of an entry with that key |
| Common.Iterate | src/agent/base.py:166 | iterating a JSON value: a list gives its items, a string its characters, an object its keys; null, booleans and numbers cannot be iterated |
| Common.Find | src/agent/base.py:225 | `str.find`: the first index holding the character, or -1 when there is none |
| Common.RFind | src/agent/base.py:226 | `str.rfind`: the last index holding the character, or -1 when there is none |
| Common.Dedup | src/core/rag_utils.py:378 | `list(set(...))`: no duplicates, and exactly the members of the input |
| Common.Lower | src/agent/tools.py:32 | `str.lower` keeps the length and lowercases each letter |
| Common.JoinAppend | src/agent/base.py:131 | joining one more part appends the separator and that part |
| Schemas.ParseMode | src/schemas/chat_schemas.py:7 | exactly "co_reviewer" and "interactive_assistant" are valid modes, and a valid mode's name is the input |
| Schemas.ParseModeName | src/schemas/chat_schemas.py:7 | parsing a mode's name gives the mode back |
| Schemas.SessionData.constructor | src/schemas/chat_schemas.py:5-11 | a new session has the given PR, mode, engines and collections, an empty history and the initial-review flag unset |
| RagUtils.IndexFor | src/core/rag_utils.py:12-81 | an unknown PR fails; a known PR fails exactly when none of its listed collections has loadable storage; otherwise every listed collection is reported and the engines are exactly those of listed collections with loadable storage |
| RagUtils.LoadProjectIndex | src/core/rag_utils.py:12-81 | the loading loop computes `IndexFor` |
| RagUtils.Surviving | src/core/rag_utils.py:162-167 | the validated plan keeps only available names that were suggested, keeps every suggested available name, and is no longer than the suggestion |
| RagUtils.SurvivingNone | src/core/rag_utils.py:162-167 | when no suggestion names an available collection, nothing survives validation |
| RagUtils.SurvivingAppend | src/core/rag_utils.py:162-167 | validating a concatenation is the concatenation of the validations |
| RagUtils.SurvivingAllValid | src/core/rag_utils.py:162-167 | when every suggestion is available, validation keeps all of them in order |
| RagUtils.GetCollectionPlan | src/core/rag_utils.py:84-196 | the planning loop computes `PlanFor` |
| RagUtils.PlanCollectionsAvailable | src/core/rag_utils.py:162-178 | every collection of a successful plan is available, and the plan is empty only when nothing is available |
| RagUtils.PlanFallback | src/core/rag_utils.py:169-196 | an unparsable reply, a reply without "collections" and an empty "collections" list all give the plan of every available collection, with its fixed reasoning and the "General information" focus |
| RagUtils.PlanAllInvalid | src/core/rag_utils.py:162-173 | a "collections" value none of whose suggestions is an available name gives the plan of every available collection, with the fixed reasoning and the "General information" focus, whatever the reply's own reasoning |
| RagUtils.PlanFollowsReply | src/core/rag_utils.py:162-178 | when a suggestion survives, the plan is the surviving suggestions in order, with the reply's reasoning and search focus |
| RagUtils.PlanRaises | src/core/rag_utils.py:151-187 | a parsed reply that is not an object, or whose "collections" cannot be iterated, raises: only a decoding error is caught |
| RagUtils.FocusedQuery | src/core/rag_utils.py:209-211 | the focused query is the query, "\n\nFocus on: ", then the focus |
| RagUtils.EngineQueryText | src/core/rag_utils.py:209-219 | the engine is asked the focused query, extended only for `_source_code` collections |
| RagUtils.TextPreview | src/core/rag_utils.py:236 | a text of at most 200 characters is kept whole; a longer one becomes its first 200 characters and "..." |
| RagUtils.SourceOf | src/core/rag_utils.py:234-240 | a provenance record holds `text_preview` and every metadata entry; the metadata wins on a clash |
| RagUtils.Retrieve | src/core/rag_utils.py:199-249 | an unknown collection or a failing engine gives nothing; otherwise the answer, one source per retrieved chunk in order, and the collection name |
| RagUtils.QueryCollection | src/core/rag_utils.py:199-249 | the source-extraction loop computes `Retrieve` |
| RagUtils.KeptSpec | src/services/chat_service.py:87-96 | the kept responses are at most one per planned collection, each the retrieval of a planned collection with an engine, and none are kept exactly when every retrieval fails |
| RagUtils.KeptAppend | src/services/chat_service.py:87-96 | querying a concatenation of collections keeps the concatenation of the responses |
| RagUtils.NonEmpty | src/core/rag_utils.py:378 | `filter(None, ...)` keeps exactly the non-empty names |
| RagUtils.MergedSourcesMembers | src/core/rag_utils.py:368-372 | the merged sources are exactly the sources of the present responses |
| RagUtils.MergedSourcesAppend | src/core/rag_utils.py:368-372 | merging distributes over concatenation, so the order of the sources is the order of the responses |
| RagUtils.PresentNamesMembers | src/core/rag_utils.py:370-373 | the recorded names are exactly the collections of the present responses |
| RagUtils.UsedCollectionsSpec | src/core/rag_utils.py:368-378 | `collections_used` has no duplicates and holds exactly the non-empty collection names of the present responses |
| RagUtils.MergeResponses | src/core/rag_utils.py:368-378 | the merging loop computes the merged sources and the used collections |
| RagUtils.SynthesizeCoReviewerResponse | src/core/rag_utils.py:252-379 | the co-reviewer synthesis is the completion (or its apology) with the merged provenance |
| RagUtils.SynthesizeInteractiveResponse | src/core/rag_utils.py:382-440 | the interactive synthesis is the completion (or its apology) with the merged provenance |
| Sessions.SessionManager.constructor | src/core/session_manager.py:8-10 | the store starts empty |
| Sessions.SessionManager.GetSession | src/core/session_manager.py:12-14 | a stored id gives its session, any other id nothing |
| Sessions.SessionManager.CreateSessionId | src/core/session_manager.py:16-18 | the new id names no stored session |
| Sessions.SessionManager.StoreSession | src/core/session_manager.py:45-47 | the id now names the session and every other id is unchanged |
| Sessions.SessionManager.CreateSession | src/core/session_manager.py:20-43 | an index load failure raises HTTP 500, an invalid mode raises, and otherwise a fresh session is stored under the id with the PR, mode and loaded index, an empty history and the flag unset |
| Sessions.SessionManager.UpdateSessionHistory | src/core/session_manager.py:49-66 | a stored session gets the user query and then the answer appended, with the flag kept; an unknown id changes nothing |
| Sessions.SessionManager.SetInitialReviewGenerated | src/core/session_manager.py:68-73 | a stored session gets the flag set with the history kept; an unknown id changes nothing |
| ChatService.Resolve | src/services/chat_service.py:19-33 | an empty or absent id creates a session, an unknown id is not found, a stored id with another PR or mode conflicts, and otherwise the stored session is used |
| ChatService.RunRetrieval | src/services/chat_service.py:87-96 | the retrieval loop keeps the successful responses of the planned collections, in order |
| ChatService.EffectiveQuery | src/services/chat_service.py:64-76 | a turn is the initial review exactly when the mode is co-reviewer and the flag is unset, and then the standard request replaces the user's query |
| ChatService.ProcessChatRequest | src/services/chat_service.py:10-148 | a conflict gives 400 and an unknown id 404, both with the store unchanged; only the reused session object may change (its frame), so on 400 and 404 no session changes and a turn leaves every other session as it was; an index failure for a new session gives 500 with nothing stored; otherwise the response, history and flag are those of `Turn` on the used or freshly stored session |
| ChatService.TurnHistory | src/services/chat_service.py:57-132 | a missing key changes nothing; a failed pipeline leaves the effective query appended once and reports 500; a response leaves the effective query appended twice, then the answer |
| ChatService.TurnFlagOnce | src/services/chat_service.py:64-76 | the flag is never cleared; it becomes set exactly on a co-reviewer turn with the key configured; the first new history entry is the effective query |
| ChatService.SecondTurnUsesQuery | src/services/chat_service.py:64-76 | after a co-reviewer turn, the next turn records the user's own query |
| ChatService.TurnResponse | src/services/chat_service.py:99-142 | a response carries the session's id, mode and PR; when no collection answers, the answer is the fixed apology with no sources and the planned collections |
| Tools.AvailableTools | src/agent/tools.py:257-263 | five tools with distinct names, in the order rag_search, collection_planner, pr_summary, file_analysis, response_synthesis |
| Tools.ParamNames | src/agent/tools.py:11-15 | the parameter names in declaration order |
| Tools.BindArgs | src/agent/base.py:168-175 | keyword binding succeeds exactly when the parameters form an object, name only declared parameters and supply all of them; each argument is the supplied value |
| Tools.SearchQuery | src/agent/tools.py:26-37 | the search query is the caller's query behind the prefix chosen by mode and initial flag |
| Tools.SearchFocus | src/agent/tools.py:28-33 | an initial co-reviewer search replaces a focus mentioning "general" with the detailed focus; other searches keep the focus |
| Tools.SearchCollections | src/agent/tools.py:39-49 | the search loop keeps the successful responses of the requested collections that belong to the session |
| Tools.RagSearchExecute | src/agent/tools.py:18-55 | the method computes the rag_search run |
| Tools.RagSearchQueriesSessionCollections | src/agent/tools.py:18-55 | every rag_search response comes from a requested collection of the session that has an engine; a missing session raises |
| Tools.SurvivingFromRequested | src/agent/tools.py:40-41 | every searched collection was requested |
| Tools.PlannerQuery | src/agent/tools.py:76-84 | the planner query is the prefix chosen by mode and initial flag, then exactly the caller's query as a string, then the matching suffix |
| Tools.PlannerExecute | src/agent/tools.py:68-97 | the method computes the collection_planner run; its collections are the plan's and all belong to the session |
| Tools.PlanIsAvailable | src/agent/tools.py:87-95 | a plan only names available collections |
| Tools.QueryAllCollections | src/agent/tools.py:135-144 | the summary retrieval loop keeps the successful responses of every session collection, in order |
| Tools.PrSummaryExecute | src/agent/tools.py:110-159 | the method computes the pr_summary run, whose summary is the co-reviewer synthesis over every session collection |
| Tools.SourceCodeCollections | src/agent/tools.py:193-194 | exactly the session collections ending in `_source_code` |
| Tools.AnalysisType | src/agent/tools.py:182-187 | a co-reviewer analysis type mentioning "general" becomes the detailed analysis type; others are kept |
| Tools.FileQuery | src/agent/tools.py:181-198 | the file query is the file path behind the prefix chosen by mode |
| Tools.QuerySourceCode | src/agent/tools.py:192-202 | the analysis loop keeps the successful responses of the source-code collections |
| Tools.FileAnalysisExecute | src/agent/tools.py:173-209 | the method computes the file_analysis run |
| Tools.FileAnalysisQueriesSourceCode | src/agent/tools.py:192-202 | every analysis response comes from a session collection ending in `_source_code` |
| Tools.DecodeResponses | src/agent/tools.py:223-247 | decoding succeeds exactly when every item decodes, and then the k-th decoded response is the k-th item's decoding |
| Tools.ResponseSynthesisExecute | src/agent/tools.py:223-254 | the method computes the response_synthesis run, which reports the session's mode and no duplicate collections |
| Tools.ExecuteTool | src/agent/base.py:175 | the method binds the arguments and runs the tool of that kind |
| Tools.MissingSessionRaises | src/agent/tools.py:23-24 | every tool raises without a session, and the planner and summary tools also raise without a PR id |
| Agent.FirstParsed | src/agent/base.py:217-222 | the first fenced block that parses, and nothing exactly when none parses |
| Agent.BraceSpan | src/agent/base.py:225-230 | a brace span exists exactly when the first '{' comes before the last '}', and it starts with '{' and ends with '}' |
| Agent.StripControls | src/agent/base.py:234 | the cleaned text holds exactly the characters of the text other than line feeds, carriage returns and tabs, and text without them is unchanged |
| Agent.StripControlsAppend | src/agent/base.py:234 | cleaning works piece by piece, so the kept characters keep their order and repetitions |
| Agent.FirstParsedAppend | src/agent/base.py:217-222 | searching a concatenation finds the first part's parsable block when it has one, else the second part's |
| Agent.ExtractJsonCascade | src/agent/base.py:201-243 | the result is the first candidate that parses, in the order whole text, fenced blocks, brace span, span without line breaks and tabs; `{}` when none does |
| Agent.ExtractJsonEmpty | src/agent/base.py:243 | when no stage parses, the result is the empty object |
| Agent.PromptMode | src/agent/base.py:130 | the interactive prompt is chosen exactly for "interactive_assistant", and every other mode gets the co-reviewer prompt |
| Agent.ToolEntry | src/agent/base.py:124-128 | a tool's entry starts with its name, description and the parameters header |
| Agent.ToolsListAppend | src/agent/base.py:115-131 | registering one more tool appends a blank line and its entry to the tools list |
| Agent.FindTool | src/agent/base.py:171 | the first registered tool with the selected name, and nothing exactly when no tool has that name |
| Agent.DispatchRecordsTools | src/agent/base.py:164-179 | every recorded tool is registered, there are no more results than recorded tools or selections, and without a raise the recorded tools are the results' names in order |
| Agent.DispatchStopsAtRaise | src/agent/base.py:159-187 | once a selection raises, later selections are not run |
| Agent.DispatchSkipsUnknown | src/agent/base.py:167-172 | an object selection naming no registered tool, wherever it stands among the others, leaves the run as it would be without it |
| Agent.DispatchAllUnknown | src/agent/base.py:167-172 | selections that all name no registered tool record nothing and raise nothing |
| Agent.Selections | src/agent/base.py:163-166 | selections are taken only from an object with a "tools" entry |
| Agent.SynthesizeAsWrittenLosesProvenance | src/agent/base.py:254-270 | as written, a synthesised response never has sources or collections, and any non-empty rag_search result makes synthesis raise |
| Agent.SynthesisSourcesCounterexample | src/agent/base.py:254-258 | one response_synthesis result with one source: as written no source is reported, as intended the source and its collection are |
| Agent.ReportedProvenance | src/agent/base.py:254-295 | the intended synthesis reports exactly the sources and the collections of the tool results, the collections without duplicates |
| Agent.AgentRunAsWrittenFallsBack | src/agent/base.py:181-199 | as written, a request whose tools ran and gathered a rag_search response is answered with the raw analysis, the tools recorded and no metadata; the intended run answers with the synthesis when its completion succeeds |
| Agent.AgentFallback | src/agent/base.py:155-199 | only a failing analysis call raises; a fallback answer has no sources or collections and records only registered tools |
| Agent.BaseAgent.constructor | src/agent/base.py:19-21 | a new agent has no tools |
| Agent.BaseAgent.RegisterTool | src/agent/base.py:107-109 | the tool is appended to the registered tools |
| Agent.BaseAgent.FormatToolsPrompt | src/agent/base.py:111-131 | the formatting loops give the prompt for the mode and the tools list |
| Agent.BaseAgent.SynthesizeResponse | src/agent/base.py:245-308 | the aggregation loop computes the intended synthesis |
| Agent.BaseAgent.ProcessRequest | src/agent/base.py:133-199 | the analysis, extraction, dispatch loop and synthesis compute `AgentRun`, the request path with the corrected synthesis |
| AgentServices.FlagAfter | src/services/agent_service.py:34-41 | after a turn the flag is set exactly when it was set or the turn was the initial review, and the next turn is not an initial review |
| AgentServices.ServiceTurn | src/services/agent_service.py:33-66 | an agent failure becomes HTTP 500, and a synthesised response reports whether the turn was the initial review |
| AgentServices.InitialReviewOnce | src/services/agent_service.py:34 | an initial review needs co-reviewer mode and the flag unset; it never happens twice in a row, and never in interactive mode |
| AgentServices.AgentService.constructor | src/services/agent_service.py:11-18 | the agent has every available tool registered, in order, and the store is empty |
| AgentServices.AgentService.ProcessRequest | src/services/agent_service.py:20-66 | a non-empty stored id is reused; any other id gets a fresh session under a new id, or the index or mode error; the flag is set by an initial turn, the history is never changed, every stored session object other than the reused one is unchanged, and the outcome is `ServiceTurn` |
| FetchPrData.SplitLines | scripts/fetch_pr_data.py:127 | `split('\n')` gives at least one line, and no line holds a line feed |
| FetchPrData.JoinSplitLines | scripts/fetch_pr_data.py:127 | joining the split lines with "\n" gives the text back |
| FetchPrData.SplitJoinLines | scripts/fetch_pr_data.py:127 | splitting joined lines that hold no line feed gives the lines back |
| FetchPrData.HunksPartition | scripts/fetch_pr_data.py:125-134 | the hunks partition the lines in order into non-empty groups; exactly the groups after the first start with a "@@" line, and no other line of a group does |
| FetchPrData.JoinGroupsFlatten | scripts/fetch_pr_data.py:130-134 | joining the joined groups equals joining all their lines |
| FetchPrData.ChunksReassemble | scripts/fetch_pr_data.py:125-134 | joining the chunks with "\n" reproduces the diff; there is at least one chunk, and every chunk after the first starts with "@@" |
| FetchPrData.ChunkDiff | scripts/fetch_pr_data.py:125-134 | the chunking loop computes `Chunks` |
| FetchPrData.Extension | scripts/fetch_pr_data.py:141 | `os.path.splitext(...)[1]`: non-empty exactly when the last '.' of the name follows its last '/' with a character other than '.' of that component before it, and then it is the name from that '.' on; empty when the name has no '.' |
| FetchPrData.ExtensionDotIsLast | scripts/fetch_pr_data.py:141 | a dot that starts an extension is the name's last '.', after its last '/', with a character other than '.' between them |
| FetchPrData.ProcessFile | scripts/fetch_pr_data.py:121-152 | a file is processed exactly when its counts and status are present; the diff is empty when none was fetched; the chunks are those of the diff, the total is additions plus deletions, and the file's type and status are recorded |
| FetchPrData.ProcessedFilesSpec | scripts/fetch_pr_data.py:119-152 | every processed file comes from a listed file, its chunks reassemble its diff, and its total adds up; with no malformed file, every file is processed |
| FetchPrData.ProcessFiles | scripts/fetch_pr_data.py:119-152 | the file loop computes the processed files |
| FetchPrData.MainChangesSpec | scripts/fetch_pr_data.py:160 | `main_changes` holds exactly the names of files with more than ten changed lines |
| FetchPrData.Summarize | scripts/fetch_pr_data.py:155-161 | the file count is the number of processed files, and the file types are exactly theirs, without duplicates |
| FetchPrData.TotalsAddUp | scripts/fetch_pr_data.py:157-158 | the PR's additions plus deletions equal the sum of the files' totals |
| FetchPrData.PrSummaryOfFiles | scripts/fetch_pr_data.py:119-161 | a PR summary counts no more files than were listed, and its totals add up |

## Left out

- The wording of every prompt is left out, and so is the language model, which is an arbitrary function of the prompt's inputs. The PR metadata and file changes that `synthesize_co_reviewer_response` extracts (src/core/rag_utils.py:264-280) only feed the prompt, so they are left out too.
- `json.loads` is a parameter, and so are the code-fence and file-path regular expressions. The model does not describe JSON text or regex syntax.
- Index loading from disk (ChromaDB, storage directories, the storage-suffix naming) is a map from PR id to the listed collections and the loadable engines.
- The retriever's `similarity_top_k` setting (src/core/rag_utils.py:221-226) is left out, because the query engine is opaque.
- `uuid.uuid4()` is replaced by an id one character longer than every stored id, which is just as new.
- Logging, `print` and `traceback` are left out.
- Concurrency between asynchronous requests on the same session is not modelled; each request runs to completion.
- The HTTP transport is left out: the FastAPI application, the router and CORS (src/main.py, src/routers/chat.py, run.py).
- The GitHub and git I/O of scripts/fetch_pr_data.py is left out (`PRDataFetcher` and `main`). So is the copying of the PR's title, comments and reviews at scripts/fetch_pr_data.py:163-184, which only reshapes fetched fields.
- scripts/index_data.py and src/utils.py are not part of this model; they are file-system and index I/O.
- Common.Get: takes the first entry for a key, while `json.loads` keeps the last value of a duplicated key, so replies with duplicate keys are not modelled.
- Common.Lower: lowercases ASCII letters only, while `str.lower` also lowercases letters of other scripts.
- Common.Dedup: keeps first occurrences in order, while `list(set(...))` has an unspecified order. Only distinctness and membership are stated, and that holds for `RagUtils.UsedCollectionsSpec`, `FetchPrData.Summarize` and `Agent.ReportedProvenance` alike.
- Tools.DecodeResponses: treats any response item that is neither falsy nor an object of string fields as raising. The source would raise for most such items, but for some only later, or not at all.
- FetchPrData.ProcessFile: every file has a filename. For a file without one, the source's error handler itself raises, and that path is not modelled.
- ChatService.ProcessChatRequest: takes the session store as a parameter, for the reason given above. That only the reused session object may change is stated by its frame, not by a separate `ensures`.
- Agent.BaseAgent.ProcessRequest: runs the corrected synthesis. As written, a request whose tools gathered a rag_search response is answered with the raw analysis and no metadata, and no request reports sources or collections; `Agent.AgentRunAsWritten` and `Agent.AgentRunAsWrittenFallsBack` state that path.
- JSON numbers are integers. A float in a model reply (a `search_focus` of 0.5, say) cannot be represented, so its rendering by `str()` is not modelled.

## Findings

| source | as written | input that shows it | evidently intended | confidence | as-written member | corrected member |
|---|---|---|---|---|---|---|
| src/agent/base.py:254-260 | `_synthesize_response` looks for "sources" and "collections_used" on the `{"tool", "result"}` wrapper, so they are always empty. It also joins the rag_search response records with `"\n".join`, which raises TypeError for any non-empty list, so the agent falls back to its raw analysis | a response_synthesis result with one source gives a response with no sources; a rag_search result with one response makes synthesis raise | read the sources and collections from each tool's result, and pass the gathered responses to the synthesis prompt | high, not executed | Agent.SynthesizeAsWritten | Agent.Synthesize |
