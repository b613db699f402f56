# Autonomous deep research agent — a Dafny model

This project models the deterministic core of a multi-agent research pipeline
written in Python. A planner turns a topic into search queries. A researcher
runs every query against every search provider with retries, then scores,
sorts and formats the sources. A critic grades the research and can send the
run back to the planner, up to `max_revisions` times. A writer produces the
report with a citation footer. Around this loop sit a SQLite search cache and
session store, a Streamlit front end (`app.py`), a command-line front end
(`main.py`), a FastAPI/WebSocket back end (`api/main.py`) and an older
single-pass pipeline (`nodes.py`).

Language-model calls, HTTP responses, the clock, random ids and Python's
`str`/float formatting are parameters: function-typed oracles or plain
values. The model works on the values they return. One Dafny module stands
for each source file:

- `Text`: Python string helpers.
- `Json`: dictionary values.
- `State`: src/state.py.
- `Settings`: src/config.py.
- `Base`, `Planner`, `Researcher`, `Critic`, `Writer`: src/agents.
- `Graph`: src/graph.py.
- `Cache`: src/tools/cache.py.
- `Search`: src/tools/search.py.
- `Nodes`: nodes.py.
- `App`: app.py.
- `Cli`: main.py.
- `Api`: api/main.py.

Code that updates objects in place is modelled as classes with `modifies`
clauses:

- `ResearchCache`, `TavilySearch`, `BaseAgent`, `Config`, `ConnectionManager`, `ResearchApi`.

Loops become methods proved against specification functions:

- the retry loop, the search fan-out, the in-place scoring and sort;
- the citation, search-formatting and stream-merge loops.

The headline property is `Graph.RunResearch`: a run always ends at the
writer after at most two refinement loops, with a complete, non-empty report.

Two behaviours of the source that the model keeps deserve a note:

- `research_data` is declared with the `add` reducer (src/state.py:84), so every researcher pass appends to it. The critic reads only `research_data[:10]`, so on a refinement loop it still grades the first pass's entries. `Critic.PromptSeesFirstTen` states that the prompt depends on nothing else.
- `api/main.py` stores the request's `citation_style` on the session (api/main.py:113), but the graph run never reads it. The writer takes the style from the global configuration instead (src/agents/writer.py:114). `Api.Session.citationStyle` is kept and nothing reads it.

## Model

| member | source | states |
|---|---|---|
| State.NewSource | src/state.py:14-24 | a new source has both scores at 0.0 and carries the given retrieval time |
| State.SourceToDict | src/state.py:26-36 | `to_dict` has exactly the eight source keys |
| State.SourceDictRoundTrip | src/state.py:26-36 | reading a source's dictionary back gives the same source |
| State.DefaultQualityReport | src/state.py:39-47 | the default report has zero scores, no suggestions and no refinement request |
| State.QualityToDict | src/state.py:49-57 | `to_dict` has exactly the six quality keys |
| State.QualityDictRoundTrip | src/state.py:49-57 | reading a report's dictionary back gives the same report |
| State.StatusNameRoundTrip | src/state.py:95 | the seven status literals are distinct and read back to their status |
| State.CreateInitialState | src/state.py:102-117 | the initial state has the topic and ceiling, empty lists, no report, revision 0 and status "planning" |
| State.StateToDict | src/state.py:77-99 | the state dictionary has exactly the twelve state keys |
| State.Reduce | src/state.py:84-99 | `messages` and `research_data` append, every other key an update carries replaces the old value, and a key it omits is kept |
| State.MergeItem | app.py:326-332 | one merge step sets `state.get(key, []) + value` for `messages` and `research_data` (list or string concatenation, or a number sum) and fails exactly when `+` raises; any other key is overwritten |
| Json.Concat | app.py:328 | `+` concatenates two lists or two strings, and adds two numbers: their float sum when either side is a float, otherwise their int sum with `True` as 1 and `False` as 0. Every other pair raises |
| State.MergeItemsAppend | app.py:326-332 | merging two runs of items is merging one after the other, and a failure is final |
| State.MergeMatchesReduce | app.py:326-332 | merging an update's items into a state's dictionary gives the dictionary of the reduced state |
| Settings.ResolveModel | src/config.py:25-30 | a given model is kept; an empty one becomes gpt-4o for "openai" and the Claude model otherwise |
| Settings.DefaultSearchConfig | src/config.py:34-40 | the search defaults are 5 results, advanced depth, 5 parallel searches, 3 attempts and 1.0 s delay |
| Settings.DefaultQualityConfig | src/config.py:44-49 | the quality defaults are minimum score 7.0, 2 iterations, 3 sources and fact checking on |
| Settings.DefaultCacheConfig | src/config.py:53-57 | the cache defaults are enabled, data/research_cache.db and a 24-hour TTL |
| Settings.ValidationErrorsSpec | src/config.py:84-96 | each error is reported exactly when its key is missing for the chosen provider; an unknown provider needs only the Tavily key; no errors iff all needed keys are present |
| Settings.ValidationErrors | src/config.py:84-96 | at most two errors, and the Tavily error comes first exactly when its key is missing |
| Settings.AllKeysMissing | src/config.py:88-89 | with no keys at all validation always fails |
| Settings.LLMConfig.constructor | src/config.py:18-30 | the provider is kept, the model is resolved for it, and temperature and token limit take their defaults |
| Settings.Config.constructor | src/config.py:60-82 | the keys come from the environment, the provider is the lowered `LLM_PROVIDER`, and the model is the one resolved for "anthropic" |
| Settings.Config.Validate | src/config.py:84-96 | `validate` returns the specified error list for the configuration's keys and provider |
| Settings.AsWrittenModelMismatch | src/config.py:79-82 | with `LLM_PROVIDER=OpenAI` the configuration pairs provider "openai" with the Claude model |
| Settings.CorrectedModel | src/config.py:25-30 | the model resolved after the provider override is gpt-4o exactly for "openai" |
| Base.ClientFor | src/agents/base.py:27-40 | "openai" builds the OpenAI client, any other provider the Anthropic one, with the settings passed through |
| Base.Tag | src/agents/base.py:49-51 | a log line is `[name] message`, and both parts can be read back at fixed positions |
| Base.BaseAgent.constructor | src/agents/base.py:17-19 | a new agent has its name and no client yet |
| Base.BaseAgent.Log | src/agents/base.py:49-51 | `log` tags the message with the agent's name |
| Base.BaseAgent.Llm | src/agents/base.py:21-42 | the client is built once, on first use, and the same client is returned afterwards |
| Critic.PromptSeesFirstTen | src/agents/critic.py:66-69 | the evaluation prompt depends only on the first ten research entries |
| Critic.Evaluate | src/agents/critic.py:57-114 | refinement is requested iff the research is not sufficient, the score is under the minimum and the revision is under the ceiling (defaults 0 and 2); scores are copied, suggestions are kept only when refining, the status is planning iff refining else writing, and the revision goes up by one iff refining |
| Critic.NeedsRefinement | src/agents/critic.py:82-86 | refinement is asked only for insufficient research scoring below the threshold while revisions remain |
| Critic.CeilingForcesWriting | src/agents/critic.py:82-86 | at or past the ceiling the critic never asks for refinement, clears the suggestions, moves to writing and keeps the revision |
| Critic.SignalsAgree | src/agents/critic.py:93-112 | the report's flag, the next status and the revision bump always agree |
| Critic.GoodEnoughForcesWriting | src/agents/critic.py:82-84 | sufficient research or a score at the minimum always goes to writing |
| Critic.Run | src/agents/critic.py:57-114 | a refining critic bumps the revision of a state below its ceiling and returns to planning; otherwise the revision stays and the status is writing |
| Planner.Bullets | src/agents/planner.py:73 | one `- s` line per suggestion, in order |
| Planner.QualityTruthy | src/agents/planner.py:68 | a state's quality report is truthy exactly when there is one |
| Planner.FeedbackContext | src/agents/planner.py:66-73 | the context is empty on the first pass, without a report or without suggestions; otherwise it is the header followed by the suggestion lines |
| Planner.FeedbackLines | src/agents/planner.py:71-73 | the context splits back into exactly the suggestion bullets |
| Planner.PlanUpdate | src/agents/planner.py:82-88 | the update sets the plan to the queries and the status to awaiting_approval, and logs two tagged lines |
| Planner.Run | src/agents/planner.py:58-88 | the plan comes from the prompt with the feedback context, and the first pass has no context |
| Researcher.Backoff | src/agents/researcher.py:57-58 | the delay before retry i+1 is `retry_delay * (i+1)` |
| Researcher.SearchQuery | src/agents/researcher.py:45-63 | the retry loop returns the specified result, the delays slept and the number of calls |
| Researcher.Retry | src/agents/researcher.py:45-63 | from attempt k, no attempt remains when k reaches the limit, and otherwise the calls made number more than k and at most the limit |
| Researcher.RetryFirstSuccess | src/agents/researcher.py:49-55 | the first successful attempt's sources are returned after j+1 calls and the linear backoff delays before it |
| Researcher.RetryAllFail | src/agents/researcher.py:56-61 | when every attempt fails the result is empty after exactly `retry_attempts` calls, with no sleep after the last |
| Researcher.RetryBounded | src/agents/researcher.py:49-63 | never more calls than attempts, and one sleep fewer than calls |
| Researcher.NeverRaisingCalledOnce | src/agents/researcher.py:49-55 | a provider that always answers is called once, with no sleep |
| Researcher.Row | src/agents/researcher.py:73-74 | one task per provider for a query, in provider order |
| Researcher.TasksLength | src/agents/researcher.py:71-74 | there are queries × providers tasks |
| Researcher.TaskAt | src/agents/researcher.py:71-74 | task i·p+j is query i with provider j: query-major order |
| Researcher.ConcatLength | src/agents/researcher.py:86-87 | flattening keeps every result: its length is the sum of the lengths |
| Researcher.TaskResults | src/agents/researcher.py:83 | `gather` returns the results in task order |
| Researcher.ExecuteParallelSearches | src/agents/researcher.py:65-89 | the sources are the task results flattened in task order, without deduplication |
| Researcher.RelevanceScore | src/agents/researcher.py:94-100 | relevance is twice the topic-word overlap, capped at 10 |
| Researcher.QualityScore | src/agents/researcher.py:103-105 | quality lies in [3, 10]; the length part is capped at 5, tavily and wikipedia get 2 more, and a long tavily or wikipedia source gets 10 |
| Researcher.Scored | src/agents/researcher.py:96-105 | scoring changes only the two scores, within their bounds |
| Researcher.ScoreAll | src/agents/researcher.py:96-105 | every source is scored in place, order kept |
| Researcher.SortDesc | src/agents/researcher.py:108 | the sort keeps the length |
| Researcher.SortPermutes | src/agents/researcher.py:108 | the sort is a permutation |
| Researcher.SortDescending | src/agents/researcher.py:108 | the result is in descending combined score |
| Researcher.SortStable | src/agents/researcher.py:108 | sources with equal combined score keep their relative order |
| Researcher.ScoreSources | src/agents/researcher.py:91-110 | the array ends scored and stably sorted by descending combined score |
| Researcher.ScoreInPlace | src/agents/researcher.py:96-105 | the loop scores every element of the array in place |
| Researcher.SortInPlace | src/agents/researcher.py:108 | the in-place insertion sort produces the specified descending stable order |
| Researcher.InsertElement | src/agents/researcher.py:108 | on an array holding an ordered prefix followed by the rest, one step leaves the prefix with the next element inserted, followed by the untouched remainder |
| Researcher.SiftLeft | src/agents/researcher.py:108 | the element moves left past every lower-keyed neighbour and stops behind one whose key is at least its own, so the array is the insertion of the element into the prefix |
| Researcher.Providers | src/agents/researcher.py:34-43 | Tavily is present iff a key is set, and Wikipedia is always last |
| Researcher.ScoreAndSort | src/agents/researcher.py:122-123 | the collected sources come back scored and sorted |
| Researcher.Entries | src/agents/researcher.py:126-135 | one research entry for each of the top 15 sources, in order |
| Researcher.Entry | src/agents/researcher.py:127-135 | the entry reads back, at fixed offsets, the `### title` heading, the `**Source:**` url, the `**Provider:**` line with the score out of 10, and ends with at most 1000 characters of the content |
| Researcher.WriteEntries | src/agents/researcher.py:126-135 | the loop writes exactly the entries of the top 15 |
| Researcher.Run | src/agents/researcher.py:112-144 | the update holds all sources scored and sorted, the entries of the top 15, status evaluating and two log lines |
| Writer.SourceFields | src/state.py:26-36 | the writer reads the text fields of `Source.to_dict` |
| Writer.SourceDicts | src/agents/writer.py:114 | one dictionary per source, in order |
| Writer.Citation | src/agents/writer.py:61-71 | a citation is the `[i] ` label followed by the APA or MLA layout, or Chicago for any other style name; the title defaults to "Unknown Title", the url to empty, and only the first ten characters of the retrieval time are kept |
| Writer.Apa | src/agents/writer.py:66-67 | the APA layout opens with the title and closes with the url |
| Writer.Mla | src/agents/writer.py:68-69 | the MLA layout quotes the title first and closes with the url in angle brackets |
| Writer.Chicago | src/agents/writer.py:70-71 | the Chicago layout quotes the title first and closes with the url |
| Writer.FormatCitation | src/agents/writer.py:62-71 | the loop body builds exactly the specified citation for its source and number |
| Writer.CollectCitations | src/agents/writer.py:59-73 | the loop collects the specified citation of every source, numbered from 1, in source order |
| Writer.Citations | src/agents/writer.py:59-73 | citation k carries number k+1 and source k |
| Writer.FormatCitations | src/agents/writer.py:57-75 | the loop joins the numbered citations with newlines |
| Writer.CitationSingleLine | src/agents/writer.py:61-71 | a citation of single-line fields is one line |
| Writer.CitationLines | src/agents/writer.py:57-75 | the joined citations split back into one line per source, numbered from 1 |
| Writer.QualityContext | src/agents/writer.py:88-96 | the quality context is empty exactly when there is no report |
| Writer.Run | src/agents/writer.py:77-141 | the final report is the model's text plus a footer citing the first 15 sources, status complete, and two log lines with the length and the citation count |
| Writer.ReportShape | src/agents/writer.py:114-130 | the final report starts with the model's text and its reference list has one line per cited source, at most 15 |
| Graph.ShouldContinueAfterCritic | src/graph.py:19-25 | the router returns planner iff the report's flag is truthy, writer otherwise, and fails when the report is not a dictionary |
| Graph.AbsentFlagRoutesToWriter | src/graph.py:21-25 | a missing report or flag routes to the writer |
| Graph.RouteFollowsReport | src/graph.py:19-25 | on a state's dictionary the router follows the report's refinement flag |
| Graph.CheckPlanApproval | src/graph.py:28-33 | plan approval always proceeds to the researcher |
| Graph.Next | src/graph.py:61-89 | every transition is an edge of the fixed table; the planner goes to the researcher, and only END, or a critic whose report cannot be read, has no successor |
| Graph.PlannerStep | src/graph.py:55 | the planner node keeps the topic, the ceiling, the revision and any quality report |
| Graph.ResearcherStep | src/graph.py:56 | the researcher node keeps the topic, the ceiling, the revision and any quality report |
| Graph.CriticStep | src/graph.py:57 | the critic node always leaves a quality report; asking for refinement happens only below the ceiling and advances the revision by one, otherwise the revision stays |
| Graph.WriterStep | src/graph.py:58 | the writer node keeps topic, ceiling and revision, and completes with a non-empty report |
| Graph.RunNode | src/graph.py:55-58 | each node keeps topic and ceiling; only the critic moves the revision, by one when it asks for refinement below the ceiling; the writer completes the report |
| Graph.SuccessorMatchesRouter | src/graph.py:61-89 | the typed successor used by the run is the one the edge table and routers choose |
| Graph.Execute | src/graph.py:102-122 | a run loops at most `max_revisions - revision` times, visits planner, researcher, critic per round then the writer, and ends complete with a non-empty report |
| Graph.RunResearch | src/graph.py:102-122 | `run_research` loops at most twice and ends complete, with the revision equal to the number of loops and a non-empty report |
| Cache.KeyIgnoresCaseAndPadding | src/tools/cache.py:70-73 | queries that differ in letter case or in any whitespace padding on either side share a key |
| Cache.CacheKey | src/tools/cache.py:70-73 | a key never opens with whitespace and always ends with a colon and the provider name |
| Cache.KeyInjective | src/tools/cache.py:70-73 | two keys are equal iff the normalised queries and the providers are equal, for colon-free providers |
| Cache.Lookup | src/tools/cache.py:95-98 | a read hits iff the key is present and expires strictly after now, and returns the stored results |
| Cache.AfterRead | src/tools/cache.py:99-105 | a read deletes the key exactly when its entry has expired, and nothing else |
| Cache.Live | src/tools/cache.py:189-198 | clearing keeps exactly the entries expiring at or after now |
| Cache.Saved | src/tools/cache.py:137-150 | saving sets topic, state and update time, keeps the first creation time, and leaves the other sessions alone |
| Cache.PutThenGet | src/tools/cache.py:109-135 | a fresh entry just put is read back unchanged and not deleted |
| Cache.PutIsolated | src/tools/cache.py:109-135 | putting one key does not change reads of another |
| Cache.ReadIdempotent | src/tools/cache.py:75-107 | a read's deletion never changes what a later read returns |
| Cache.ClearPreservesReads | src/tools/cache.py:189-198 | clearing expired entries never changes what a read returns |
| Cache.BoundaryEntrySurvivesClear | src/tools/cache.py:97 | an entry expiring exactly now survives clearing, yet a read misses and deletes it |
| Cache.SaveTwice | src/tools/cache.py:145-149 | a second save keeps the first creation time and takes the new topic, state and time |
| Cache.InsertRow | src/tools/cache.py:175 | inserting a row adds exactly that row |
| Cache.InsertRowNewestFirst | src/tools/cache.py:175 | insertion keeps the rows newest first |
| Cache.SortRows | src/tools/cache.py:175 | the sort is a permutation of the rows |
| Cache.SortRowsNewestFirst | src/tools/cache.py:175 | the sorted rows are newest first |
| Cache.SortKeepsTable | src/tools/cache.py:172-177 | sorting keeps every session exactly once |
| Cache.TopRows | src/tools/cache.py:172-177 | the first n sorted rows are the n most recently updated sessions |
| Cache.ResearchCache.constructor | src/tools/cache.py:27-31 | opening the cache keeps the TTL and the tables' contents |
| Cache.ResearchCache.GetCachedResults | src/tools/cache.py:75-107 | the read returns the live results and deletes an expired entry, leaving sessions alone |
| Cache.ResearchCache.CacheResults | src/tools/cache.py:109-135 | the put replaces the key's entry with one expiring `ttl_hours` later |
| Cache.ResearchCache.SaveSession | src/tools/cache.py:137-150 | the upsert changes only the session table, as specified |
| Cache.ResearchCache.LoadSession | src/tools/cache.py:152-167 | a session loads iff it exists, with its topic and state |
| Cache.ResearchCache.ListSessions | src/tools/cache.py:169-187 | the listing holds `limit` rows (all for a negative limit), newest first, distinct, from the table, and no unlisted session is newer than the last listed |
| Cache.ResearchCache.CollectRows | src/tools/cache.py:172-174 | the scan yields every session exactly once |
| Cache.ResearchCache.ClearExpired | src/tools/cache.py:189-198 | clearing removes exactly the entries that expired before now |
| Search.ListField | src/tools/search.py:58 | `.get(key, [])` on a dictionary gives its list, or the empty list when the key is missing |
| Search.SlicePrefix | src/tools/search.py:171 | Python's `xs[:m]` keeps min(m, n) items, or drops -m from the end for negative m |
| Search.Collect | src/tools/search.py:57-69 | the sources exist iff every item converts, one per item, in order |
| Search.MapResults | src/tools/search.py:57-73 | the loop yields all converted items, or nothing when one raises |
| Search.TavilySource | src/tools/search.py:59-66 | a Tavily source carries its query and provider, with defaults "", "Untitled" and "" |
| Search.TavilySearch.constructor | src/tools/search.py:31-33 | a new provider has its key and no client |
| Search.TavilySearch.Client | src/tools/search.py:35-40 | the client is built once from the key and reused |
| Search.TavilySearch.Search | src/tools/search.py:42-73 | the request is advanced with an answer, and the sources are the converted results |
| Search.CleanSnippet | src/tools/search.py:106 | removing the highlight tags never lengthens a snippet |
| Search.PlainSnippetUnchanged | src/tools/search.py:106 | a snippet without highlight tags is unchanged |
| Search.HighlightRemoved | src/tools/search.py:106 | a snippet with one highlighted match loses both tags and keeps the text before, inside and after them |
| Search.WikiContent | src/tools/search.py:118-129 | no pages give the snippet; a first page that is not a dictionary raises; a truthy string extract is cut to 2000 characters; a falsy extract gives the snippet; a missing extract gives the snippet cut to 2000; a truthy non-string extract is refused |
| Search.WikiSource | src/tools/search.py:126-134 | a Wikipedia source is titled "Wikipedia: " + title, with the quoted title in the url |
| Search.WikipediaSearch | src/tools/search.py:81-140 | the sources are the converted search hits, or none when a request fails |
| Search.Quote | src/tools/search.py:127 | `quote` emits only safe characters, `%` and hex digits |
| Search.QuoteSafeIdentity | src/tools/search.py:127 | a title of safe characters is left as is |
| Search.QuoteRoundTrip | src/tools/search.py:127 | unquoting the quoted ASCII title gives the title back |
| Search.SerperSource | src/tools/search.py:172-179 | a Serper source reads `link`, `title` (default "Untitled") and `snippet` |
| Search.SerperSearch.constructor | src/tools/search.py:148-149 | the provider keeps its key |
| Search.SerperSearch.Search | src/tools/search.py:151-186 | the sources are the first `max_results` organic results, converted |
| Search.TavilyTagged | src/tools/search.py:57-69 | every Tavily source carries the query and the provider name |
| Search.TavilySources | src/tools/search.py:57-69 | a Tavily search yields one source per result or none at all |
| Search.WikipediaTagged | src/tools/search.py:103-136 | every Wikipedia source carries the query and the provider name |
| Search.WikipediaSources | src/tools/search.py:103-136 | a Wikipedia search yields one source per hit or none at all |
| Search.SerperTagged | src/tools/search.py:170-182 | every Serper source is tagged, and there are at most `max_results` |
| Search.SerperSources | src/tools/search.py:170-182 | a Serper search yields one source per result among the first `max_results`, or none at all |
| Search.TavilyOnePerResult | src/tools/search.py:58-67 | a well-formed response gives one source per result, in order, with its fields or their defaults |
| Nodes.GetLlm | nodes.py:27-36 | OpenAI's gpt-4o exactly when the lowered provider is "openai", else Claude, both at 0.3 |
| Nodes.GetLlmIgnoresCase | nodes.py:29 | writing the provider in capitals or in lower case picks the same client as writing it as given |
| Nodes.GetLlmUsesCorrectedModel | nodes.py:27-36 | the node pipeline pairs provider and model as the corrected configuration does |
| Nodes.PlanResearch | nodes.py:39-86 | the planning node needs a topic and returns only the plan, the model's queries |
| Nodes.SummaryBlock | nodes.py:125-126 | the summary appears exactly when the answer is truthy |
| Nodes.ResultLine | nodes.py:130-134 | a result line exists iff the result is a dictionary whose content (default "No content available") is a string or a list |
| Nodes.ContentSlice | nodes.py:134 | `content[:500]` keeps the first 500 characters of a string or the first 500 items of a list, and raises for any other value |
| Nodes.IteratedLines | nodes.py:130 | a results list gives its lines; an empty string or dictionary gives no lines; a non-empty one raises on its first item; any other value is not iterable |
| Nodes.FormatResults | nodes.py:129-134 | the loop builds the specified result lines |
| Nodes.LinesFailPersist | nodes.py:130-134 | one malformed result spoils the whole entry |
| Nodes.SearchOne | nodes.py:110-142 | one query gives its specified entry: an error entry for a raised call, a non-dictionary response or results that raise, otherwise the header, the summary and the lines (none for an empty string or dictionary) |
| Nodes.SearchEntry | nodes.py:112-142 | a raised call gives its error entry with the exception text, and a response that is not a dictionary gives the error entry |
| Nodes.ExecuteSearch | nodes.py:89-146 | one entry per planned query, in plan order, with an error entry for a failing query |
| Nodes.EntryShape | nodes.py:122-141 | every entry starts with its query's header, and a raising call gives the error entry |
| Nodes.WellFormedEntry | nodes.py:121-136 | a well-formed response gives header, summary, sources heading and result lines |
| Nodes.AllLinesSome | nodes.py:130-134 | results that each format give formatted lines |
| Nodes.ContentTruncated | nodes.py:130-134 | a result line shows string content whole up to 500 characters and only the first 500 beyond, and a list content through its first 500 items |
| Nodes.NextRevision | nodes.py:204 | a missing revision becomes 1, an integer one goes up by one |
| Nodes.WriteReport | nodes.py:149-205 | the report node needs topic and research data that `"\n".join` accepts (a list of strings, or a string joined character by character) and an addable revision, and returns the report with the bumped revision |
| Nodes.JoinedItems | nodes.py:169 | `"\n".join` takes the items of a list of strings or the characters of a string, and raises for any other value |
| Nodes.RevisionCounts | nodes.py:202-205 | each write bumps the revision by exactly one, from 0 |
| App.SelectedExample | app.py:219-223 | an example is selected iff one was clicked, and the last clicked wins |
| App.ResearchInput | app.py:213-225 | the typed topic wins over an example, and research starts iff the button or an example was clicked |
| App.ExampleClickRuns | app.py:219-225 | clicking example i alone starts research on it |
| App.Icon | app.py:230-236 | unknown nodes get the robot icon |
| App.Before | app.py:313 | `split("]")[0]` is the longest prefix without `]` |
| App.ParseMessage | app.py:312-316 | a message with both brackets splits into node and stripped content; any other keeps the streaming node |
| App.ParseInvertsTag | app.py:312-316 | parsing a tagged log line gives back the agent name and the message |
| App.View | app.py:310-317 | the view shows the last ten messages, parsed, with icons |
| App.Tagged | app.py:304-306 | each new message is paired with its node |
| App.StreamTracksGraph | app.py:326-332 | after any stream the front end's state dictionary is the dictionary of the graph's reduced state |
| App.MergeAll | app.py:295-332 | an empty stream leaves the state as it was, and a stream whose merge succeeds succeeded on every shorter prefix |
| App.MergeUpdate | app.py:326-332 | the merge loop computes the specified merge |
| App.Stream | app.py:294-340 | the stream merges every update, or fails, and collects every message with its node |
| App.AppendMessages | app.py:304-306 | the messages are appended in order |
| App.MergeFailPersists | app.py:336-340 | once a merge fails the whole run returns None |
| App.SafeChar | app.py:349 | letters, digits, space, hyphen and underscore are kept, anything else becomes `_` |
| App.SafeChars | app.py:349 | sanitising maps every character |
| App.SafeTopic | app.py:349-350 | the topic part is at most 50 characters of letters, digits, hyphen and underscore |
| App.SafeTopicKeeps | app.py:349-350 | a topic of safe characters is only cut to 50 |
| App.FileNameHasNoSlash | app.py:348-350 | the file name cannot escape the reports directory |
| App.Completed | app.py:384 | the run counts as complete iff the final state has a truthy report |
| Cli.ValidateEnvironment | main.py:39-53 | the CLI proceeds iff validation reports no error |
| Cli.MissingTavilyKeyStops | main.py:39-53 | without a Tavily key the CLI never starts |
| Cli.ChooseTopic | main.py:159-171 | an argument is used as given; otherwise the stripped input quits on a quit word in any case, stops when empty, or runs |
| Cli.QuitIgnoresCase | main.py:163-167 | any quit word, in any letter case and with any whitespace padding, quits when no topic argument is given |
| Cli.SafeTopic | main.py:62-63 | the CLI's topic part is at most 50 characters of letters, digits, hyphen and underscore |
| Cli.SanitisersAgree | main.py:62-63 | the two front ends name a report alike unless the cut topic starts or ends with a space |
| Cli.SanitisersDiffer | main.py:62-63 | a cut topic with a space at either end gets a shorter CLI name than the Streamlit one, where that space is `_` |
| Cli.Preview | main.py:112-116 | the preview is the first 2000 characters, with a truncation notice iff the report is longer |
| Cli.RunCli | main.py:72-116 | the CLI run ignores its `max_revisions` (at most two loops), saves under the sanitised name and previews the report |
| Api.LastWindow | api/main.py:142 | `[-20:]` keeps the newest twenty items and fails on a value that cannot be sliced |
| Api.StatusBody | api/main.py:131-143 | the view has exactly the eight keys: the id and topic, `status` (default "unknown"), `plan` (`[]`), `plan_approved` (`False`), `quality_report` (`None`), `revision_number` (0) and the newest 20 messages. It fails exactly when the messages cannot be sliced |
| Api.StatusOfState | api/main.py:131-143 | on a state's dictionary the view shows its status, plan, approval, quality report, revision and twenty newest messages |
| Api.ApprovedAppendable | api/main.py:155-159 | approving a plan keeps the message and research lists that later updates append to |
| Api.Approved | api/main.py:155-159 | the plan is replaced only for non-empty queries, the flag is set, the status is researching iff approved else awaiting_approval, and nothing else changes |
| Api.ApprovalKeepsState | api/main.py:155-159 | approving a state's dictionary gives the dictionary of the state with plan, flag and status set |
| Api.Len | api/main.py:179 | `len` is defined on lists, strings and dictionaries only |
| Api.ReportBody | api/main.py:170-180 | a report fails with 400 unless the status is "complete"; otherwise it returns the report, quality and source count |
| Api.ReportOfState | api/main.py:173-180 | on a state's dictionary the report is available iff the state is complete, with its report and source count |
| Api.FreshSessionHasNoReport | api/main.py:105-115 | a just-started session has no report |
| Api.MergeKeepsAppendable | api/main.py:252-258 | the merge never raises on a state whose appended keys hold lists, and keeps them lists |
| Api.StreamNeverRaises | api/main.py:217-258 | a stream of node updates never makes the merge raise |
| Api.EventFrames | api/main.py:219-249 | one frame per new message, then status, plan and quality frames when present |
| Api.MessageFramesInOrder | api/main.py:217-228 | the message frames sent over a stream are exactly the streamed messages, in stream order, each as its own frame |
| Api.EventMessageFrames | api/main.py:219-228 | the message frames of one update are its messages, in order, and its status, plan and quality frames are not message frames |
| Api.StreamFrames | api/main.py:217-249 | a stream sends at least one frame per streamed message |
| Api.ConnectionManager.constructor | api/main.py:71-72 | no connection at start |
| Api.ConnectionManager.Connect | api/main.py:74-76 | connecting registers or replaces the session's socket |
| Api.ConnectionManager.Disconnect | api/main.py:78-80 | disconnecting removes the session's socket, if any, and nothing else |
| Api.ConnectionManager.SendMessage | api/main.py:82-84 | a message is sent only to a registered session's socket |
| Api.DisconnectIdempotent | api/main.py:78-80 | disconnecting a session twice leaves the manager as one disconnect does, and an unknown session changes nothing |
| Api.ResearchApi.constructor | api/main.py:44 | the session table starts empty |
| Api.ResearchApi.StartResearch | api/main.py:100-122 | a session is added under the id with status "created" and the initial state, and its view is returned |
| Api.ResearchApi.GetResearchStatus | api/main.py:125-143 | an unknown id gives 404; a known one gives the status view, with at most 20 messages |
| Api.ResearchApi.ApprovePlan | api/main.py:146-161 | an unknown id gives 404 and changes nothing; a known one changes only its state, as specified |
| Api.ResearchApi.GetReport | api/main.py:164-180 | an unknown id gives 404; a known one gives the report answer, which succeeds only for a complete state |
| Api.ResearchApi.WebsocketResearch | api/main.py:183-277 | the socket is unregistered at the end; an unknown id gets the error frame; otherwise the client gets init, the update frames and the final or error frame, and the session's state becomes the merged state |
| Api.StreamUpdates | api/main.py:213-258 | the loop sends every update's frames and merges every update, without raising |
| Api.SendEventFrames | api/main.py:219-249 | the sends for one update are the specified frames, in order |

## Left out

- Model calls, HTTP and the Tavily SDK: prompts go to oracles (`plan`, `assess`, `write`, `respond`, `find`, `extract`, `post`, `search`). Provider responses are decoded JSON values, and `None` stands for a request that raises.
- asyncio: the semaphore and real sleeping are out. The retry loop records its delays, and `gather` is taken to return results in task order.
- SQLite: SQL text, connections, `json.dumps`/`json.loads` (taken as identity) and SHA-256 truncation are out. The cache key is the normalised `query:provider` string, which is injective where the hash is only nearly so.
- Cache time stamps are integers, `now` is a parameter, and the `get_cache` singleton is out.
- Cache.ResearchCache.ClearExpired: the source compares ISO strings with `<`. The model compares integer times, which agrees for ISO stamps of one format.
- Presentation and transport: Streamlit rendering and CSS, `print`, FastAPI, CORS, static files, uvicorn and the health endpoint `root` are out.
- Process effects are out: file writes, `mkdir`, `sys.exit`, `argparse` and `dotenv`. Environment reads are a map parameter.
- Float formatting (`:.1f`, `str(float)`) and `str()` of non-string values are function parameters (`fmt`, `render`, `show`).
- Text: `lower`, `upper`, `isalnum`, `isspace` and `split` use ASCII semantics; other characters count as non-letters and non-space.
- Graph.Execute: the run follows the typed successor function. `Graph.SuccessorMatchesRouter` proves it agrees with the dictionary routers and the edge table. The LangGraph runtime, `MemorySaver` and the thread id built from `hash(topic)` are out.
- Graph.RunNode: the writer node requires a quality report. The critic always supplies one before the writer runs.
- Writer.Run: requires a quality report for the same reason. A missing report is the only case in which the source uses its `{}` default.
- Search.TavilySearch.Search: one `now` stamps every source of a search, where the source reads the clock once per source.
- Search.MapResults: a Tavily or Serper result whose `url`, `title` or `content`/`snippet` is not a string is kept by the source, because the `Source` dataclass checks no types. The model's sources hold strings only, so such a search yields no sources. For Wikipedia a non-string `title` or `snippet` does raise (`quote`, `.replace`), and there no sources is what the source returns too.
- Search.WikiContent: a truthy `extract` that is not a string is sliced and stored as the content by the source. The model's content is a string, so that search yields no sources.
- Nodes.WriteReport: `research_data` held as a dictionary is joined key by key in insertion order by the source. The model's dictionaries are unordered maps, so it treats that case as raising.
- Search.WikipediaSearch: the oracle `extract` stands for the second request and the `query.pages` lookup. It returns the page values in dictionary order.
- Nodes.ExecuteSearch: the text of an exception raised while reading a malformed response is the parameter `malformed`. The `TavilyClient` constructor raising for a missing key is out.
- App.Stream: stream events are typed node updates, so only merge failures end the stream early. Exceptions from the graph itself are out.
- Api.ResearchApi.WebsocketResearch: each stream event carries one node's update. A client disconnect in mid-stream and failing sends are out. The graph's exception is a parameter that ends the stream after the given updates.
- Api.ResearchApi.StartResearch: `uuid4` and the clock are parameters. The session-level `status` field stays "created" because the source never updates it.
- Researcher.Run: `get_config`'s values (attempts, delay, Tavily key) are parameters.

## Findings

| source | as written | input that shows it | evidently intended | confidence | as-written member | corrected member |
|---|---|---|---|---|---|---|
| src/config.py:79-82 | `Config.__post_init__` overwrites `llm.provider` after the nested `LLMConfig()` already resolved its model for the default provider "anthropic", so the model stays the Claude model | environment `LLM_PROVIDER=OpenAI`: provider "openai", model "claude-sonnet-4-20250514" | the model follows the provider from the environment, gpt-4o for "openai", as the defaulting rule of `LLMConfig` (src/config.py:25-30) and `get_llm` (nodes.py:27-36) do | high; not executed | Settings.AsWrittenModelMismatch | Settings.CorrectedModel |
