# IRADocument, modelled in Dafny

IRADocument reads a source repository and writes a wiki about it. Its backend scans the
repository for technologies (Python, JavaScript, Docker, databases, READMEs) and builds a file
tree. It then runs language-model agents that call tools: a Miner draws conclusions from each
file, an Architect plans the navigation tree, and a Scribe writes one page per navigation entry.
Progress goes to a browser client over a WebSocket. The client is a React application that
parses GitHub URLs, keeps the analysis state and shows the pipeline's phases and the agents'
thoughts.

This project models the deterministic core of that system and proves properties of the model:

- the tool-calling loops of the three executors (`AgentExecution`, `ToolExecution`,
  `LlmAgent`) and the tool registry;
- the tokenizer's truncation;
- the documentation pipeline, as a service (`DocumentationService`) and as a script
  (`RunPipeline`);
- the Miner, Architect, Scribe and subsystem agents;
- the Gemini message adaptation;
- the stage runners (`CorePipeline`, `DiscoveryPipeline`, `Orchestrator`);
- the technology scanners, the README scanner and the file tree;
- the WebSocket connection table;
- the client's URL parser, phase-status view and analysis-state reducer.

The language-model service, `json.loads`/`json.dumps`, tiktoken's encode and decode, pydantic's
schemas and the filesystem are parameters of the model. The service is a function from a
history and a tool list to a reply or an exception. The filesystem is the sequence of paths
`rglob` yields, or the tree `os.scandir` yields, with what `pathlib` reports about each path.
Code that updates state step by step is modelled as classes and methods with loops. Each of
them is proved against a specification function, and the properties are proved about those
functions as lemmas.

## Model

| member | source | states |
|---|---|---|
| AgentExecution.NoFenceSurvives | app/agents/agent_executor.py:172 | after the fence substitution no "```" is left anywhere in the reply text |
| AgentExecution.CleanContentIsStrippedUnfenced | app/agents/agent_executor.py:172 | the literal `replace("```", "")` after the substitution never removes anything: the cleaned text is the stripped, unfenced text |
| AgentExecution.GreedySpan | app/agents/agent_executor.py:173-174 | the DOTALL greedy span runs from the first opening bracket to the last closing bracket; no span exists exactly when no opening bracket precedes a closing one |
| AgentExecution.CallsFromItems | app/agents/agent_executor.py:185-197 | at most one call per decoded item, and salvaged calls never carry an id |
| AgentExecution.SalvageCalls | app/agents/agent_executor.py:168-198 | calls recovered from text never carry an id |
| AgentExecution.SingleObjectSalvaged | app/agents/agent_executor.py:174-181 | text holding one named JSON object and no `[` yields exactly that call, with its "arguments" or `{}` |
| AgentExecution.ListSpanWins | app/agents/agent_executor.py:178-181 | whenever a `[` precedes a `]` the list span is the one decoded, so the object branch is never tried |
| AgentExecution.UndecodableYieldsNothing | app/agents/agent_executor.py:182-183 | a span that fails to decode yields no calls instead of raising |
| AgentExecution.Resolve | app/agents/agent_executor.py:153-158 | the manual tools are consulted before the registry; a name resolves only when it is a string registered in one of them |
| AgentExecution.ExecuteOutcomes | app/agents/agent_executor.py:136-166 | executing a call raises only for an unhashable name; an unknown tool gives `{"error": "Tool <name> not found"}` with no invocation; otherwise at most one invocation, with the JSON-decoded arguments, and exactly one when those arguments are a mapping |
| AgentExecution.ExecuteAllAnswersEachCall | app/agents/agent_executor.py:96-114 | one tool message per executed call, in call order, each the JSON of that call's result with the call's id when it has one; messages stop just before the first call that raises |
| AgentExecution.ExecuteAllMessages | app/agents/agent_executor.py:107-114 | the k-th tool message answers the k-th call |
| AgentExecution.ExecuteAllStops | app/agents/agent_executor.py:96-97 | without an exception every call is answered; with one, the messages stop at the call that raised |
| AgentExecution.ExecuteAllPrefixStops | app/agents/agent_executor.py:96-97 | once a call raises, the later calls are never executed |
| AgentExecution.StepOnlyAppends | app/agents/agent_executor.py:64-116 | a step makes exactly one service request and only appends to the history and to the invocation log |
| AgentExecution.RunOnlyAppends | app/agents/agent_executor.py:118-134 | a run only appends to the history and logs, with at most one service request per iteration |
| AgentExecution.RunUnfold | app/agents/agent_executor.py:122-132 | one iteration: an exception propagates, a final reply returns its content, any other reply continues with one iteration fewer |
| AgentExecution.RunAnswerComesFromHistory | app/agents/agent_executor.py:118-134 | a run returns either the iteration-limit sentence or the content of a final reply that is now in the history |
| AgentExecution.SalvagedCallsRunThenFinish | app/agents/agent_executor.py:84-132 | a reply whose calls were only recovered from its text still has them executed and appended, and its content is then returned as the final answer |
| AgentExecution.AgentExecutor.constructor | app/agents/agent_executor.py:12-25 | a new executor has no tools, no history, an empty request log and `context or {}` as its context |
| AgentExecution.AgentExecutor.RegisterTool | app/agents/agent_executor.py:27-41 | the definition's name now resolves to the function, replacing any earlier one, and the definition is appended to the offered list |
| AgentExecution.AgentExecutor.SetSystemPrompt | app/agents/agent_executor.py:48-50 | the history becomes exactly the one system message; nothing else changes |
| AgentExecution.AgentExecutor.AddUserMessage | app/agents/agent_executor.py:52-54 | one user message is appended to the history; nothing else changes |
| AgentExecution.AgentExecutor.SetScope | app/agents/agent_executor.py:43-46 | a pipeline's replacement for the offered-tools rule is installed without touching the history or the tools |
| AgentExecution.AgentExecutor.ExecuteCalls | app/agents/agent_executor.py:96-114 | the history and invocation log grow by exactly what executing the calls in order yields, and the first exception is returned |
| AgentExecution.AgentExecutor.Ask | app/agents/agent_executor.py:69-78 | the history goes to the service with the offered tools, or with None when there are none, and the request is logged |
| AgentExecution.AgentExecutor.RunStep | app/agents/agent_executor.py:64-116 | the new state and the reply are those of the step function |
| AgentExecution.AgentExecutor.RunUntilComplete | app/agents/agent_executor.py:118-134 | the new state and the answer are those of the run function; with zero iterations the service is never asked and the sentence "Max iterations reached without a final answer." is returned |
| ToolExecution.ObjectEnd | app/agents/executor.py:90-108 | at a `{`, the end of the longest chunk that contains "name" and decodes to a dict with a "name" key; None exactly when no chunk of at least two characters qualifies |
| ToolExecution.ListEnd | app/agents/executor.py:111-117 | at a `[`, the end of the longest chunk that decodes to a list; None exactly when no chunk qualifies |
| ToolExecution.ScanCallsStep | app/agents/executor.py:89-132 | one scanning step: an accepted object contributes its call and resumes after its chunk, an accepted list contributes its named dicts and resumes after the list, anything else moves on one character |
| ToolExecution.ScanSpansOrdered | app/agents/executor.py:107-128 | the accepted chunks start at `{` or `[`, come in left-to-right order and never overlap |
| ToolExecution.ScanTakesLongestChunks | app/agents/executor.py:93-129 | every accepted chunk is the longest qualifying one at its start; an object yields exactly its call, a list exactly the calls of its named dict items, possibly none |
| ToolExecution.Inject | app/agents/executor.py:180-188 | the final arguments hold every supplied argument unchanged, plus each missing parameter of the tool that the context has, with the context's value, and nothing else |
| ToolExecution.ExecuteOutcomes | app/agents/executor.py:160-197 | an unhashable name raises; an unknown tool gives the not-found error dict with no invocation; a resolved tool with mapping arguments is invoked once with the context-injected arguments; at most one invocation |
| ToolExecution.HandleAllAnswersEachCall | app/agents/executor.py:147-158 | one tool message per call, in call order, each the JSON of that call's result and without a `tool_call_id`; messages stop before the first call that raises |
| ToolExecution.HandleAllPrefixStops | app/agents/executor.py:151-152 | once a call raises, the later calls are never executed |
| ToolExecution.PrepareMessages | app/agents/executor.py:137-145 | `[system, user]` when a non-empty system prompt is given, `[user]` otherwise |
| ToolExecution.RunRequestsGrow | app/agents/executor.py:44-75 | a run with at least one iteration asks the service at least once and never more than once per iteration, only appending to the request log |
| ToolExecution.RecoveredCallsContinue | app/agents/executor.py:59-73 | a reply with no structured calls whose text yields calls is not final: the calls run and the loop asks the service again |
| ToolExecution.ToolExecutor.constructor | app/agents/executor.py:12-22 | a new executor has no tools and `context or {}` as its context |
| ToolExecution.ToolExecutor.RegisterTool | app/agents/executor.py:24-28 | the name now resolves to the function and the definition is appended; the context is unchanged |
| ToolExecution.ToolExecutor.ParseToolCallsFromContent | app/agents/executor.py:77-135 | the scanning loop returns exactly the calls of the scan specification |
| ToolExecution.ToolExecutor.ScanAt | app/agents/executor.py:89-132 | one pass of the loop body moves the index strictly forward and yields exactly the calls the scan records there |
| ToolExecution.ToolExecutor.LongestObjectAt | app/agents/executor.py:93-110 | the backwards search over end positions finds the longest qualifying object chunk |
| ToolExecution.ToolExecutor.LongestListAt | app/agents/executor.py:113-131 | the backwards search over end positions finds the longest list chunk |
| ToolExecution.ToolExecutor.HandleToolCalls | app/agents/executor.py:147-158 | the history grows by exactly the tool messages of executing the calls in order |
| ToolExecution.ToolExecutor.Ask | app/agents/executor.py:50-54 | the history goes to the service with the offered tools, or None when there are none, and the request is logged |
| ToolExecution.RunAnswerIsLastReply | app/agents/executor.py:48-75 | a run that answers gives either the iteration-limit message or the content (empty when absent) of the last reply it recorded, a reply with neither structured nor recovered tool calls; with no iterations left it answers the limit message unchanged |
| ToolExecution.ToolExecutor.Run | app/agents/executor.py:37-75 | the history, logs and answer are those of the run function started from the prepared messages |
| LlmAgent.ExecuteOutcomes | app/llm/agent.py:72-91 | an unhashable name raises; a name absent from the tools gives `{"error": "Tool <name> not found"}`; a registered tool with mapping arguments is invoked once with exactly them, and its exception becomes `{"error": str(e)}`; non-mapping arguments become a type error dict |
| LlmAgent.HandleAllStops | app/llm/agent.py:59-70 | without an exception every call is answered and every name was hashable; with one, the messages stop at the unhashable name |
| LlmAgent.HandleAllAnswersEachCall | app/llm/agent.py:59-70 | no exception exactly when every name is hashable; one tool message per call, in order, each the JSON of that call's result |
| LlmAgent.HandleAllMessages | app/llm/agent.py:63-70 | the k-th tool message answers the k-th call |
| LlmAgent.HandleAllPrefixStops | app/llm/agent.py:63-64 | once a call raises, the later calls are never executed |
| LlmAgent.RunOnlyAppends | app/llm/agent.py:28-47 | a run only appends to the history and logs, offers the whole definition list on every request, and asks at most once per iteration |
| LlmAgent.RunAnswerIsLastReply | app/llm/agent.py:30-47 | with zero iterations nothing happens and the "Max iterations reached..." sentence is returned; otherwise the answer is that sentence or the content (or "") of the last history message, a reply without tool calls |
| LlmAgent.ToolExecutor.constructor | app/llm/agent.py:10-13 | a new executor has no tools and no definitions |
| LlmAgent.ToolExecutor.RegisterTool | app/llm/agent.py:15-19 | re-registering a name replaces the implementation but appends a second definition |
| LlmAgent.ToolExecutor.HandleToolCalls | app/llm/agent.py:59-70 | the history grows by exactly the tool messages of executing the calls in order |
| LlmAgent.ToolExecutor.Run | app/llm/agent.py:21-47 | the history, logs and answer are those of the run function started from the prepared messages |
| ToolRegistry.SchemaParams | app/agents/tools/registry.py:45-47 | the schema's parameters are exactly the signature's parameters other than `self` |
| ToolRegistry.RequiredNames | app/agents/tools/registry.py:50-53 | a name is required exactly when it is a parameter other than `self` without a default |
| ToolRegistry.PropertiesOf | app/agents/tools/registry.py:44-62 | the schema's properties are keyed by exactly the parameter names other than `self` |
| ToolRegistry.SchemaOf | app/agents/tools/registry.py:60-64 | the schema is an object with exactly "type" = "object", the properties of the non-`self` parameters, and the required list |
| ToolRegistry.DefinitionOf | app/agents/tools/registry.py:19-33 | a definition carries the function's own name, its stripped docstring or "No description provided." when it has none, and the generated schema |
| ToolRegistry.KnownNames | app/agents/tools/registry.py:79 | only registered names are kept |
| ToolRegistry.DefinitionsFor | app/agents/tools/registry.py:78-80 | for registered names, one definition per name, in the order of the names |
| ToolRegistry.ToolRegistry.constructor | app/agents/tools/registry.py:11-12 | a new registry holds no tools |
| ToolRegistry.ToolRegistry.Tool | app/agents/tools/registry.py:14-37 | the function is stored under its own name with its definition, replacing an earlier entry in place (insertion order kept), and returned unchanged |
| ToolRegistry.ToolRegistry.GetDefinitions | app/agents/tools/registry.py:66-74 | the definitions of exactly the registered names not excluded, in insertion order; None or an empty list excludes nothing |
| ToolRegistry.ToolRegistry.GetDefinitionsByNames | app/agents/tools/registry.py:76-80 | the definitions follow the order of the requested names, unknown names skipped |
| ToolRegistry.ToolRegistry.GetFunction | app/agents/tools/registry.py:82-85 | None exactly for unregistered names, the stored function otherwise |
| Tokenizer.LoadWithFallback | app/core/tokenizer.py:15-22 | "cl100k_base" is loaded, and "p50k_base" only when that fails |
| Tokenizer.TruncateWith | app/core/tokenizer.py:32-42 | text within the limit comes back unchanged; text over it ends with the "\n...(content truncated by Tokenizer)..." marker |
| Tokenizer.TruncatedIsPrefix | app/core/tokenizer.py:38-42 | for an encoding whose decode inverts encode and distributes over concatenation, a truncated text is a prefix of the original followed by the marker |
| Tokenizer.Tokenizer.constructor | app/core/tokenizer.py:8-11 | no encoding is cached at first |
| Tokenizer.Tokenizer.GetEncoding | app/core/tokenizer.py:13-23 | a cached encoding is returned and kept; otherwise the fallback load is made once and its result cached |
| Tokenizer.Tokenizer.Count | app/core/tokenizer.py:25-27 | the count is the length of the encoding of the text |
| Tokenizer.Tokenizer.Truncate | app/core/tokenizer.py:29-42 | the result is the truncation under the cached (or just loaded) encoding |
| DocumentationService.ClientError | app/agents/core/factory.py:9-17 | the factory accepts exactly the provider "ollama", case-insensitively, and otherwise fails with "Unsupported LLM provider: <lower-cased provider>" |
| DocumentationService.OpenAiRefused | app/services/documentation_service.py:39 | the "openai" provider the service asks for is refused by the factory, so generation ends in the failed report |
| DocumentationService.PageType | app/services/documentation_service.py:111-119 | "architecture_overview" exactly when "overview" is in the id or "architecture" or "intro" is in the lower-cased label; "module_reference" otherwise |
| DocumentationService.ScribePromptFollowsPageType | app/services/documentation_service.py:78-86 | the scribe uses its architecture prompt for exactly the pages this rule calls overviews |
| DocumentationService.MinedInMembers | app/services/documentation_service.py:144-159 | a directory's collected files are exactly its `.py` files other than `__init__.py` that read and are not blank |
| DocumentationService.CollectedHoldsEach | app/services/documentation_service.py:141-147 | every such file of a directory whose root has none of "__pycache__", ".venv", "tests", ".git" is collected |
| DocumentationService.CollectedOnlyMined | app/services/documentation_service.py:141-147 | only such files are collected |
| DocumentationService.ProcessSingleFile | app/services/documentation_service.py:149-161 | a file is appended with its relative path and text exactly when it reads and is not blank; a read failure is skipped |
| DocumentationService.CollectFiles | app/services/documentation_service.py:138-147 | the walk loop collects exactly the collection specification, in walk order |
| DocumentationService.Batch | app/services/documentation_service.py:129-130 | each batch holds between one and five files |
| DocumentationService.Batches | app/services/documentation_service.py:129 | there are exactly ceil(n / 5) batches |
| DocumentationService.BatchesPartition | app/services/documentation_service.py:128-130 | the batches are consecutive: concatenated they give back the collected files, each of one to five files |
| DocumentationService.FirstErrorWins | app/services/documentation_service.py:131 | an exception in a batch ends the miner phase with that exception |
| DocumentationService.AllBatchesMined | app/services/documentation_service.py:131-133 | when every batch succeeds the results are the batches' facts in batch order |
| DocumentationService.RunMiner | app/services/documentation_service.py:121-136 | the miner phase equals its specification and reports the collected count as `total_files` |
| DocumentationService.PreOrderClosed | app/services/documentation_service.py:163-169 | the pre-order holds every node and every child of a node it holds |
| DocumentationService.PagesOfMembers | app/services/documentation_service.py:163-169 | the collected pages are exactly the `page` nodes of the pre-order, pages nested under pages included |
| DocumentationService.CollectPages | app/services/documentation_service.py:163-169 | the recursive loop appends exactly the page nodes in pre-order |
| DocumentationService.UniqueModules | app/services/documentation_service.py:171-178 | the modules are distinct, non-empty, each the parent directory of some result file, and every non-empty parent directory is among them |
| DocumentationService.ParentDirsMembers | app/services/documentation_service.py:173-177 | the set comprehension holds exactly the non-empty parent directories of the result files |
| DocumentationService.Keywords | app/services/documentation_service.py:184-187 | every keyword is longer than two characters |
| DocumentationService.Matching | app/services/documentation_service.py:189-192 | the matching modules are exactly the modules containing some keyword, case-insensitively |
| DocumentationService.ResolvedTargetsSpec | app/services/documentation_service.py:180-198 | at most five known modules; when some module matches, every target matches; when at most five match, all of them are targets; when none matches, `["app"]` if "backend" is a keyword and "app" is known, else the first module or nothing |
| DocumentationService.ResolveTargetModules | app/services/documentation_service.py:180-198 | the loop computes exactly the resolution specification |
| DocumentationService.StatusOf | app/services/documentation_service.py:88-95 | a page's status carries its id and is "success" exactly when the scribe returned a page, "failed" otherwise |
| DocumentationService.RecordsSnoc | app/services/documentation_service.py:72-95 | recording the next page's status keeps one status per page, in page order |
| DocumentationService.Service.constructor | app/services/documentation_service.py:22-23 | the service writes under the given output directory |
| DocumentationService.Service.WriteOne | app/services/documentation_service.py:75-95 | one page is written with its resolved targets and page type and gets its status |
| DocumentationService.Service.WritePages | app/services/documentation_service.py:71-97 | one status per page, in page order, each saying whether the scribe wrote that page; only a tokenizer that cannot load on the first page fails the phase |
| DocumentationService.Service.Generate | app/services/documentation_service.py:27-109 | a refused client or a failed miner phase gives the failed report with its error; a completed report has `docs_path` = output directory joined with the project id, `total_pages` equal to the number of pages and one success-or-failed status per page; with a plan it is one status per page of the plan's pre-order walk, "success" exactly when the scribe wrote that page, and the only failure is a tokenizer that cannot load; no plan gives the failed report with the missing-plan message |
| RunPipeline.KeywordList | scripts/run_pipeline.py:30-38 | every keyword is longer than two characters (the added "storage" and "repository" included) |
| RunPipeline.ResolvedSpec | scripts/run_pipeline.py:23-49 | at most five modules; when some module matches, every target is a known matching module; when at most five match, all are targets; when none matches, `["app"]` if "backend" is a keyword, else nothing |
| RunPipeline.StoragePagesFindRepositories | scripts/run_pipeline.py:36-42 | a page id mentioning "repository" or "storage" always finds a module whose name holds either word, and lists it when no more than five match |
| RunPipeline.FallbackDiffersFromService | scripts/run_pipeline.py:45-46 | with no match and "backend" a keyword, the script returns `["app"]` even when no module is called "app", where the service falls back to the first module |
| RunPipeline.ResolveTargetModules | scripts/run_pipeline.py:23-49 | the loop computes exactly the resolution specification |
| RunPipeline.MatchModules | scripts/run_pipeline.py:40-42 | the loop keeps exactly the modules containing some keyword, case-insensitively, in module order |
| RunPipeline.ScriptPageType | scripts/run_pipeline.py:160-163 | the page type is one of "architecture_overview" and "module_reference" |
| RunPipeline.ScriptPageTypeAgainstService | scripts/run_pipeline.py:160-163 | an overview exactly when "overview" is in the id or "architecture" in the lower-cased label; it differs from the service's rule exactly for labels holding "intro" only |
| RunPipeline.ScriptPromptFollowsPageType | scripts/run_pipeline.py:160-172 | the scribe uses its architecture prompt for exactly the pages the script calls overviews |
| RunPipeline.NodesJson | scripts/run_pipeline.py:96 | a dumped node list has one dict per node, in order |
| RunPipeline.VisitDumped | scripts/run_pipeline.py:114-129 | traversing a dumped node gives the node itself when it is a page, then the pages under it, in pre-order |
| RunPipeline.TraverseFromDumped | scripts/run_pipeline.py:114-129 | traversing dumped children gives exactly their pages in pre-order |
| RunPipeline.FreshPlanPages | scripts/run_pipeline.py:88-134 | the pages traversed from a freshly dumped plan are the same pages, in the same order, as the service's page collection of the plan |
| RunPipeline.ModuleList | scripts/run_pipeline.py:138-145 | the loop builds exactly the distinct non-empty parent directories of the result files |
| RunPipeline.SetToList | scripts/run_pipeline.py:145 | `list(set)` holds exactly the set's members |
| RunPipeline.PageKeys | scripts/run_pipeline.py:151-152 | the ids and labels of all pages, in order, or the error of the first page without them |
| RunPipeline.PageKeysFirstError | scripts/run_pipeline.py:149-154 | the first page whose id or label cannot be read ends the loop with its error |
| RunPipeline.DumpedPagesKeyed | scripts/run_pipeline.py:151-152 | dumped pages always yield their own id and label |
| RunPipeline.SavedFilesMembers | scripts/run_pipeline.py:174-178 | the saved files are exactly `wiki_docs/<id>.json` for the pages the scribe wrote, at most one per page |
| RunPipeline.WriteOne | scripts/run_pipeline.py:149-184 | an unreadable id or label escapes the loop as an error; otherwise the page's file is saved exactly when the scribe wrote the page |
| RunPipeline.WritePages | scripts/run_pipeline.py:148-184 | the saved files follow the saved-files specification over the page keys; a page without id or label ends the run with its error |
| RunPipeline.RunScript | scripts/run_pipeline.py:52-186 | a missing or empty key or a missing miner output stops the script before anything else; a saved plan is used without asking the architect; a fresh plan is saved and its pages, in pre-order, are written; a failed plan stops the script; pages are saved only as the scribe writes them |
| ScribeAgent.TargetFactsOfGrouping | app/agents/scribe/agent.py:62-65 | the facts text built from the grouped results depends only on the results and the targets, not on how the grouping was built |
| ScribeAgent.TargetFactsEmpty | app/agents/scribe/agent.py:34-44 | the facts text is empty exactly when no target module is among the groups |
| ScribeAgent.TargetFactsHoldEach | app/agents/scribe/agent.py:35-43 | the facts text holds the "=== MODULE: <mod> ===" section of every target that has files |
| ScribeAgent.PrepareFacts | app/agents/scribe/agent.py:30-44 | the loop builds exactly the facts text: one section per known target, in target order, one FILE block per file and one line per conclusion |
| ScribeAgent.UserMessageEndsWithFacts | app/agents/scribe/agent.py:83 | the user message starts with "Page Title: <title>" and ends with the facts |
| ScribeAgent.Accepted | app/agents/scribe/agent.py:106-112 | a page comes back exactly when `submit_page` received non-empty arguments that form a page, and its id is forced to the requested id |
| ScribeAgent.SystemPromptFor | app/agents/scribe/agent.py:75-78 | the architecture prompt exactly when "overview" is in the lower-cased page type or "architecture" in the lower-cased title; the reference prompt otherwise |
| ScribeAgent.RequestHoldsFacts | app/agents/scribe/agent.py:65-84 | facts within the 100000-token limit reach the model whole: every target module's section is in the user message |
| ScribeAgent.PageFromSubmission | app/agents/scribe/agent.py:80-112 | a written page comes from a two-iteration run that ended normally and in which `submit_page` was called with arguments forming that page, under the requested id |
| ScribeAgent.Scribe.constructor | app/agents/scribe/agent.py:16-17 | the scribe keeps its client and the tokenizer |
| ScribeAgent.Scribe.WritePage | app/agents/scribe/agent.py:46-116 | the page written is the page specification under the cached (or just loaded) encoding; a failed encoding load is the only error |
| Grouping.ItemsOfMembers | app/agents/architect/agent.py:21-27 | a group holds exactly the items whose key is the group's, and nothing else |
| Grouping.GroupingUnique | app/agents/architect/agent.py:19-28 | the grouping of a list of file facts is determined by the list: two groupings of it are equal |
| Grouping.GroupsPartition | app/agents/architect/agent.py:19-28 | every item is in the group of its own key, and a group holds only items of the input with its key |
| Grouping.GroupStep | app/agents/architect/agent.py:22-27 | one more item appends its key to the key order the first time the key is seen, and appends the item to its own group only |
| Grouping.GroupBy | app/agents/architect/agent.py:19-28 | the one-pass `defaultdict(list)` loop builds the grouping: keys in order of first appearance, each holding exactly its items in input order |
| Facts.ModuleOf | app/agents/architect/agent.py:23-26 | an item's module is its non-empty parent directory, or "root" when it has none; never empty |
| Facts.GroupByModule | app/agents/scribe/agent.py:19-28 | `_group_by_module` (the same code in the architect and the scribe) groups the results by module |
| Facts.FactLinesMentionEach | app/agents/architect/agent.py:53-54 | the fact text holds a "- [topic]: statement" line for every conclusion |
| Facts.ModuleTextMentionsEach | app/agents/architect/agent.py:45-55 | a module's text starts with its "=== MODULE: <mod> ===" heading and holds every file's "FILE: <basename>" heading and every conclusion's line |
| Facts.SectionsHoldEach | app/agents/architect/agent.py:50-54 | the text of a module's files holds the section of each file |
| Facts.SectionsMentionEach | app/agents/architect/agent.py:50-54 | the text of a module's files holds every file heading and every conclusion line |
| Facts.FileSectionText | app/agents/architect/agent.py:51-54 | the inner loop builds exactly one file's section |
| Facts.PrepareModuleFacts | app/agents/architect/agent.py:45-55 | the loop builds exactly the module's text |
| ArchitectAgent.TopicsOf | app/agents/architect/agent.py:39-40 | one topic per conclusion, in order |
| ArchitectAgent.AllTopicsMembers | app/agents/architect/agent.py:37-40 | the topics gathered are exactly the topics of the module's conclusions |
| ArchitectAgent.SummaryTopicsBounded | app/agents/architect/agent.py:42 | at most ten distinct topics are shown, each the topic of some conclusion, and all of them when there are at most ten |
| ArchitectAgent.SummarizeModule | app/agents/architect/agent.py:30-43 | the summary is "Module: <name>\nFiles: <count>\nTopics: <topics joined by ', '>" |
| ArchitectAgent.ModuleLinesHoldEach | app/agents/architect/agent.py:68-69 | the overview holds a "- <mod> (<n> files)" line for every module |
| ArchitectAgent.OverviewCountsFiles | app/agents/architect/agent.py:63-69 | the overview starts with "Project Modules:\n" and, for every result, names its module with the number of results in that module |
| ArchitectAgent.BuildOverview | app/agents/architect/agent.py:67-69 | the loop builds exactly the overview text |
| ArchitectAgent.Validated | app/agents/architect/agent.py:99-100 | a value comes back exactly when the submit tool received non-empty arguments that validate |
| ArchitectAgent.PlanFromSubmission | app/agents/architect/agent.py:73-104 | a plan comes from a two-iteration run that ended normally and in which `submit_navigation` was called with the arguments that form it |
| ArchitectAgent.SelectModulesSpec | app/agents/architect/agent.py:131-142 | the targets are the modules whose name contains the page id or is contained in it (all of them for "architecture"), and every module when none qualifies |
| ArchitectAgent.PageFactsHoldEach | app/agents/architect/agent.py:148-151 | the source material holds the full text of every target module |
| ArchitectAgent.PageRequestCarriesFacts | app/agents/architect/agent.py:159-161 | the request is cut to at most 100000 characters of facts and carries facts within that limit whole |
| ArchitectAgent.Architect.constructor | app/agents/architect/agent.py:16-17 | the architect keeps its client |
| ArchitectAgent.Architect.PlanNavigation | app/agents/architect/agent.py:57-104 | the plan is the plan specification over the grouping of the results |
| ArchitectAgent.Architect.SelectTargets | app/agents/architect/agent.py:131-142 | the loop selects exactly the module selection specification |
| ArchitectAgent.Architect.CollectFacts | app/agents/architect/agent.py:148-151 | the loop builds exactly the page's source material, module by module |
| ArchitectAgent.Architect.WritePage | app/agents/architect/agent.py:106-188 | the page is the page specification over the grouping of the results |
| MinerAgent.NormalizedConclusions | app/agents/miner/agent.py:50-61 | truthy "conclusions" are kept as given; without "topic" the conclusions default to `[]`; falsy conclusions with a "topic" become one wrapped conclusion of topic, impact and statement |
| MinerAgent.Normalized | app/agents/miner/agent.py:47-67 | the stored data has exactly "file" (the argument's, or the analysed path) and the normalised "conclusions" |
| MinerAgent.Submitter | app/agents/miner/agent.py:43-68 | the closure answers "Conclusions successfully submitted." when its conclusions have a length, and raises otherwise |
| MinerAgent.Stored | app/agents/miner/agent.py:41-67 | nothing is stored exactly when no call of the tool succeeded; otherwise the normalised arguments of one successful call |
| MinerAgent.LastSubmissionStored | app/agents/miner/agent.py:64-67 | a later successful call overwrites what earlier ones stored |
| MinerAgent.ParseImpact | app/agents/miner/schema.py:7-9 | an impact is exactly one of "HIGH", "MEDIUM", "LOW" |
| MinerAgent.ParseConclusion | app/agents/miner/schema.py:5-12 | a conclusion needs a string topic, a valid impact and a string statement |
| MinerAgent.ParseConclusions | app/agents/miner/schema.py:17 | a conclusion list validates exactly when every item does, keeping their order |
| MinerAgent.ParseMinerOutput | app/agents/miner/schema.py:15-17 | an output needs a string file and a list of valid conclusions |
| MinerAgent.MinerOutputRoundTrip | app/agents/miner/schema.py:15-17 | validating the dump of an output gives the output back |
| MinerAgent.NormalizedKeepsOutput | app/agents/miner/agent.py:47-67 | well-formed arguments pass through normalisation unchanged |
| MinerAgent.Unwrapped | app/agents/miner/agent.py:104-107 | a raw tool-call structure is unwrapped to its "arguments" dict; anything else is kept |
| MinerAgent.FallbackData | app/agents/miner/agent.py:97-111 | the fallback data is the unwrapped object of the greedy brace span of the text with newlines replaced by spaces, with "file" defaulted to the path and every other key kept |
| MinerAgent.Fallback | app/agents/miner/agent.py:88-118 | the fallback needs non-empty reply text whose span decodes, and validates that data |
| MinerAgent.FallbackReadsRawCall | app/agents/miner/agent.py:97-114 | a reply that writes the raw `submit_conclusions` call in its text gives the file's conclusions under the analysed path |
| MinerAgent.Outcome | app/agents/miner/agent.py:73-122 | an exception gives None; stored data is validated first; otherwise the text fallback decides |
| MinerAgent.SubmittedIsReturned | app/agents/miner/agent.py:79-80 | an output submitted through the tool is exactly what the analysis returns |
| MinerAgent.FlattenedIsWrapped | app/agents/miner/agent.py:53-61 | a single flattened conclusion is returned wrapped as a one-element list, under the analysed path |
| MinerAgent.Miner.constructor | app/agents/miner/agent.py:13-16 | the miner's shared executor starts with just the system prompt and no tools |
| MinerAgent.Miner.AnalyzeFile | app/agents/miner/agent.py:18-122 | each analysis appends its user message to the shared history and registers the tool once more (one more definition, the closure replaced); the result is the outcome of the run over the calls of this analysis only |
| Capture.Recorder | app/agents/architect/agent.py:91-93 | the submit closure always answers "Saved." |
| Capture.Captured | app/agents/architect/agent.py:89-100 | a run that raised captures nothing; captured arguments were passed in a call of the submit tool during the run |
| Capture.RunCapturing | app/agents/scribe/agent.py:80-105 | a fresh executor with the system prompt, one user message and the one tool captures exactly what the specification says |
| Capture.FreshRunBounded | app/agents/scribe/agent.py:80-105 | at most one request per iteration; the first request is the system and user message, offering only the submit tool |
| Capture.SubmitIsCaptured | app/agents/architect/agent.py:91-100 | a first reply calling the tool, then a final reply, captures exactly those arguments with one invocation |
| Capture.ServiceErrorCapturesNothing | app/agents/architect/agent.py:97-104 | a failing first request captures nothing |
| Subsystems.ParseStrings | app/agents/architect/subsystems.py:18-20 | a technology list validates exactly when every item is a string, keeping order |
| Subsystems.ParseSubsystem | app/agents/architect/subsystems.py:12-23 | a subsystem needs string "name", "role" and "root_path"; "technologies" is a string list, `[]` when absent |
| Subsystems.ParseSubsystems | app/agents/architect/subsystems.py:26-27 | a subsystem list validates exactly when every item does, keeping order |
| Subsystems.ParseSubsystemsList | app/agents/architect/subsystems.py:26-27 | validated arguments hold a "subsystems" list whose items validate |
| Subsystems.SubsystemsRoundTrip | app/agents/architect/subsystems.py:26-27 | validating the dump of a subsystem list gives the list back |
| Subsystems.ContextShowsFiles | app/agents/architect/subsystems.py:43-45 | the context has a "File: <path>" line for every file |
| Subsystems.ContextShowsFacts | app/agents/architect/subsystems.py:47-49 | the context shows the statements of each file's first two conclusions |
| Subsystems.ContextLinesFromFiles | app/agents/architect/subsystems.py:42-49 | every context line comes from one of the files |
| Subsystems.SubmittedAreDetected | app/agents/architect/subsystems.py:57-86 | a first reply submitting a subsystem list makes that list the detection result |
| Subsystems.ServiceErrorDetectsNone | app/agents/architect/subsystems.py:87-90 | a failing request gives `[]` |
| Subsystems.SubsystemDetector.constructor | app/agents/architect/subsystems.py:35-36 | the detector keeps its client and the tokenizer |
| Subsystems.SubsystemDetector.ContextOf | app/agents/architect/subsystems.py:42-49 | the loop builds exactly the context lines, file by file |
| Subsystems.SubsystemDetector.Detect | app/agents/architect/subsystems.py:38-90 | the result is the detection specification under the cached (or just loaded) encoding, with the context cut to 50000 tokens and one iteration |
| CorePipeline.StageScope | app/agents/core/pipeline.py:33-41 | a non-empty tool list offers exactly the registry's definitions of those names; otherwise the agent's own tools plus the whole registry |
| CorePipeline.BasePipeline.constructor | app/agents/core/pipeline.py:15-17 | a new pipeline has no stage results |
| CorePipeline.BasePipeline.RunStage | app/agents/core/pipeline.py:19-51 | the stage installs its tool scope, appends its prompt as a user message, runs the agent for five iterations and records the answer under its name; an exception records nothing |
| CorePipeline.BasePipeline.Record | app/agents/core/pipeline.py:49 | the answer is stored under the stage's name, a repeated name keeping its first position |
| CorePipeline.BasePipeline.Execute | app/agents/core/pipeline.py:53-57 | the base pipeline always raises "Subclasses must implement the execute method." |
| DiscoveryPipeline.Definitions | app/agents/discovery_pipeline.py:12-31 | the definitions exist exactly when all three prompts load, then hold exactly "exploration", "tech_stack" and "summary", each with its prompt and its one tool; otherwise the first load failure |
| DiscoveryPipeline.FilterLadder | app/agents/discovery_pipeline.py:43-48 | filtering the ladder keeps its order: exploration, tech_stack, summary |
| DiscoveryPipeline.StagesToRunSpec | app/agents/discovery_pipeline.py:45-48 | the stages run are exactly the enabled ladder stages, in ladder order whatever the order they were enabled in |
| DiscoveryPipeline.AllStagesByDefault | app/agents/discovery_pipeline.py:46-48 | with no list given, the whole ladder runs |
| DiscoveryPipeline.UnknownStagesIgnored | app/agents/discovery_pipeline.py:47 | names outside the ladder in the enabled list change nothing |
| DiscoveryPipeline.FirstsOfDistinct | app/agents/discovery_pipeline.py:61 | on a fresh pipeline the executed keys are exactly the stages run, in order |
| DiscoveryPipeline.Execute | app/agents/discovery_pipeline.py:33-64 | a failing prompt load raises before any stage runs; otherwise every stage run has a result, `stages_executed` is the result keys in first-insertion order, and "summary" is reported when that stage ran |
| DiscoveryPipeline.RunStages | app/agents/discovery_pipeline.py:50-57 | each stage runs in order with its prompt and tools; after the loop every stage has a result, the key order extended by the new names |
| DiscoveryPipeline.RunDefined | app/agents/discovery_pipeline.py:51-57 | one stage runs with its named tools only and its answer is recorded under its name |
| Orchestrator.FirstFailureStops | app/pipeline/orchestrator.py:32-43 | the first step that raises ends the run with the error "<step>: <message>", and the later steps never run |
| Orchestrator.RunStepsSnoc | app/pipeline/orchestrator.py:32-43 | one more step runs only when no earlier step raised |
| Orchestrator.StopsAt | app/pipeline/orchestrator.py:43 | once a prefix of the steps has raised, the steps after it change nothing |
| Orchestrator.PipelineContext.constructor | app/pipeline/orchestrator.py:9-23 | a fresh context has no errors |
| Orchestrator.AnalysisPipeline.constructor | app/pipeline/orchestrator.py:27-28 | the pipeline keeps its steps |
| Orchestrator.AnalysisPipeline.Run | app/pipeline/orchestrator.py:30-44 | the same context is returned, its data that of the steps run in order, and at most one error appended, the first |
| Orchestrator.CreateStandardPipeline | app/pipeline/orchestrator.py:48-53 | the standard pipeline is prepare_workspace, clone_repo, analyze_project_step, in that order |
| GeminiClient.Connect | app/agents/core/gemini_client.py:11-21 | construction fails exactly for an empty API key, with "GEMINI_API_KEY is required for GeminiClient"; otherwise the client keeps the model |
| GeminiClient.SystemTextPresent | app/agents/core/gemini_client.py:48-56 | the system instruction is non-empty exactly when some message has the system role |
| GeminiClient.TurnsAreFilteredMessages | app/agents/core/gemini_client.py:51-60 | the chat turns are the user and assistant messages, in order, with assistant renamed "model"; other roles are dropped |
| GeminiClient.TurnRoles | app/agents/core/gemini_client.py:62-70 | the history holds only "user" and "model" turns: one per user or assistant message, or the single system-instruction turn when there is none |
| GeminiClient.ToHistory | app/agents/core/gemini_client.py:48-70 | the conversion loop builds exactly the history specification, the system text prepended to the first turn |
| GeminiClient.RetrySchedule | app/agents/core/gemini_client.py:87-105 | at most three attempts; each retry follows a rate-limit ("429") error and waits (attempt + 1) * 5 seconds; the result is the last attempt's, and an error before the last attempt is not a rate limit |
| GeminiClient.FirstSuccessNoWait | app/agents/core/gemini_client.py:88-95 | a first attempt that succeeds returns at once, with no wait |
| GeminiClient.GenerateResponse | app/agents/core/gemini_client.py:31-109 | the reply is the retry specification over the converted history, "text/plain" or "application/json" as asked |
| GeminiClient.JsonReply | app/agents/core/gemini_client.py:124-130 | decodable cleaned text gives its value; otherwise `{"error": "Invalid JSON response", "raw": <cleaned text>}` |
| GeminiClient.CleanedSpec | app/agents/core/gemini_client.py:124 | the cleaned text has no fence and no surrounding whitespace, and is just the stripped text when there was no fence |
| GeminiClient.GenerateJson | app/agents/core/gemini_client.py:111-130 | a generation error propagates; otherwise the reply is decoded as above, in JSON mode |
| GeminiClient.LastUser | app/agents/core/gemini_client.py:165-168 | the index of the last user message, None when there is none |
| GeminiClient.PreparedSpec | app/agents/core/gemini_client.py:144-168 | without tools or without a user message the messages go unchanged; otherwise only the last user message changes, gaining the tool instruction, and a user message without content raises |
| GeminiClient.InjectTools | app/agents/core/gemini_client.py:145-168 | the backwards loop computes exactly the prepared messages, on a copy |
| GeminiClient.Reply | app/agents/core/gemini_client.py:173 | a reply is an assistant message with the text as content and no structured calls |
| GeminiClient.ProcessMessages | app/agents/core/gemini_client.py:138-173 | the prepared messages are sent in text mode and the reply is an assistant message with no structured tool calls; an error propagates |
| PythonScanner.CutAllSpec | app/scanners/technologies/python.py:78-87 | cutting at each separator in turn leaves a prefix of the line that holds none of the separators, ending where one of them starts (or at the end of the line) |
| PythonScanner.PackageNameSpec | app/scanners/technologies/python.py:78-90 | a package name is the stripped, lower-cased prefix of the requirement before its first "==", ">=", "<=", "~=", "!=", ">", "<", ";" or space |
| PythonScanner.RequirementNamesNext | app/scanners/technologies/python.py:69-91 | one more line adds its package name exactly when it is not blank, not a comment and not an option line |
| PythonScanner.RequirementPackages | app/scanners/technologies/python.py:68-91 | the loop over the lines of requirements.txt collects exactly the package names of its requirement lines |
| PythonScanner.Matched | app/scanners/technologies/python.py:93-95 | a framework is found exactly when one of its packages was found |
| PythonScanner.MatchTable | app/scanners/technologies/python.py:93-95 | the loop over the framework table finds exactly the matched frameworks |
| PythonScanner.StreamlitConfigNeverMatches | app/scanners/technologies/python_frameworks.py:28-30 | a file name, which holds no "/", never equals ".streamlit/config.toml", so the config table never reveals streamlit |
| PythonScanner.PyprojectPackages | app/scanners/technologies/python.py:112-141 | the pyproject packages are the names of the string entries of `project.dependencies` and the lower-cased keys of a dict `tool.poetry.dependencies`; a non-mapping where a mapping is read raises |
| PythonScanner.ListedPackages | app/scanners/technologies/python.py:118-134 | only string entries contribute a package name |
| PythonScanner.FromRequirements | app/scanners/technologies/python.py:54-95 | only a readable file named requirements.txt reveals frameworks, those of its packages |
| PythonScanner.FromPyproject | app/scanners/technologies/python.py:97-145 | only a file named pyproject.toml that parses reveals frameworks; a parse failure is skipped, and a malformed table raises |
| PythonScanner.FromConfig | app/scanners/technologies/python.py:147-156 | a regular file reveals the frameworks whose config names include its name |
| PythonScanner.DetectAll | app/scanners/technologies/python.py:164-171 | one path is classified and passed through the three framework detectors |
| PythonScanner.Scan | app/scanners/technologies/python.py:158-193 | the scan loop computes exactly the scan specification over the non-denylisted paths |
| PythonScanner.FoldStops | app/scanners/technologies/python.py:164-171 | an exception from one path ends the scan |
| PythonScanner.FilesListed | app/scanners/technologies/python.py:21-48 | the Python files listed are exactly the ".py" paths outside the denylisted directories, in walk order |
| PythonScanner.NotebooksListed | app/scanners/technologies/python.py:21-51 | the notebooks listed are exactly the ".ipynb" paths outside the denylisted directories, in walk order |
| PythonScanner.StepFiles | app/scanners/technologies/python.py:42-52 | a path is appended to the Python list or to the notebook list by its suffix, never both |
| PythonScanner.FrameworksFound | app/scanners/technologies/python.py:164-171 | the scan raises exactly when some path's pyproject is malformed; otherwise a framework is found exactly when some path reveals it |
| PythonScanner.StepFrameworks | app/scanners/technologies/python.py:169-171 | one path raises exactly when its pyproject is malformed, and otherwise adds exactly what it reveals |
| PythonScanner.NoneIff | app/scanners/technologies/python.py:173-174 | the scan returns None exactly when no path outside the denylist is a ".py" or ".ipynb" file |
| PythonScanner.FrameworksReported | app/scanners/technologies/python.py:188-192 | the frameworks bucket lists exactly the frameworks found, sorted and distinct, with their count, and is detected exactly when there is one |
| TechnologyScanner.Open | app/scanners/technology_scanner.py:18-21 | construction fails exactly for a missing path, with "Repository path not found: <path>" |
| TechnologyScanner.Kept | app/scanners/technology_scanner.py:35-50 | the results are the truthy scanner results, at most one per scanner; a raising scanner is skipped |
| TechnologyScanner.Scan | app/scanners/technology_scanner.py:23-55 | the four scanners run in order, python, javascript, docker, database, and their truthy results are kept |
| TechnologyScanner.KeepTruthy | app/scanners/technology_scanner.py:36-50 | the loop keeps exactly the truthy results, in scanner order |
| TechnologyScanner.KeptEmpty | app/scanners/technology_scanner.py:40-48 | no result is kept exactly when no scanner gave a truthy result |
| TechnologyScanner.ScanKeepsOthers | app/scanners/technology_scanner.py:49-50 | an exception from the Python scanner drops only its own result |
| TechnologyScanner.Lookup | app/scanners/technology_scanner.py:69 | a key's value is found exactly when the entry has that key |
| TechnologyScanner.SplitOnJoin | app/scanners/technology_scanner.py:87 | splitting a path on "/" and joining the parts back gives the path |
| TechnologyScanner.PathName | app/scanners/technology_scanner.py:87-88 | a path's name holds no "/" |
| TechnologyScanner.Clean | app/scanners/technology_scanner.py:85-90 | a cleaned item holds no "/", and an item with neither "/" nor "\\" is kept as is |
| TechnologyScanner.ListedItems | app/scanners/technology_scanner.py:93-95 | at most 15 items, sorted and distinct, each a cleaned item; all of them when there are at most 15 distinct ones |
| TechnologyScanner.FieldLine | app/scanners/technology_scanner.py:72-96 | a field gives a line exactly when its key is not "type" or "name", it is a detected bucket and it has items, files or paths |
| TechnologyScanner.FieldLines | app/scanners/technology_scanner.py:72-96 | one line per field that gives one, in field order |
| TechnologyScanner.EntryLines | app/scanners/technology_scanner.py:69-70 | an entry's lines start with "\nEcosystem: " and its upper-cased name |
| TechnologyScanner.AllLines | app/scanners/technology_scanner.py:67 | the lines start with "### Detected Technology Stack ###" |
| TechnologyScanner.Formatted | app/scanners/technology_scanner.py:57-99 | no results give "No specific technologies detected by automated scanners."; otherwise the text starts with the header and the first ecosystem line |
| TechnologyScanner.FormatForLlm | app/scanners/technology_scanner.py:57-99 | the loop builds exactly the formatted text |
| TechnologyScanner.FormatFields | app/scanners/technology_scanner.py:72-96 | the inner loop builds exactly the field lines of an entry |
| TechnologyScanner.CleanAll | app/scanners/technology_scanner.py:82-90 | every raw item is cleaned, in order |
| TechnologyScanner.Unnamed | app/scanners/technology_scanner.py:69 | an entry without "name" is shown as "UNKNOWN" |
| TechnologyScanner.PythonAndJavaScriptUnnamed | app/scanners/technology_scanner.py:69 | the Python and JavaScript results have no "name" key, so they show as "Ecosystem: UNKNOWN" |
| TechnologyScanner.DockerNamed | app/scanners/technology_scanner.py:69 | the Docker result shows as "Ecosystem: DOCKER" |
| DockerScanner.Scan | app/scanners/technologies/docker.py:37-84 | the scan loop builds exactly the Docker report of the regular files under the root |
| DockerScanner.NoneIff | app/scanners/technologies/docker.py:59-61 | the scan returns None exactly when no regular file is a Dockerfile, a compose file or an ignore file |
| DockerScanner.AtMostOneBucket | app/scanners/technologies/docker.py:47-57 | a file goes to at most one of the three lists: Dockerfiles before compose files before ignore files |
| DockerScanner.DockerfileNames | app/scanners/technologies/docker.py:26-35 | "Dockerfile", "Dockerfile.dev" and "web.Dockerfile" are Dockerfiles; the check is case-sensitive and "Dockerfile-dev" is not one |
| DatabaseScanner.Scan | app/scanners/technologies/database.py:39-104 | the scan loop builds exactly the database report of the files outside the skipped directories |
| DatabaseScanner.NoneIff | app/scanners/technologies/database.py:74-76 | the scan returns None exactly when no scanned file is a database binary, a script or a config and none lies in a database directory |
| DatabaseScanner.BinaryOnly | app/scanners/technologies/database.py:52-54 | a binary database file is listed only as a binary: it is not a script or a config, and its directory is not recorded |
| DatabaseScanner.DirectoriesReported | app/scanners/technologies/database.py:69-72 | the directories bucket lists, sorted and distinct, exactly the parents named like database directories of the scanned non-binary files |
| JavaScriptScanner.Scan | app/scanners/technologies/javascript.py:11-37 | the scan loop builds exactly the report of the ".js" and ".ts" paths under the root |
| JavaScriptScanner.NoneIff | app/scanners/technologies/javascript.py:22-23 | the scan returns None exactly when no path has suffix ".js" or ".ts" |
| JavaScriptScanner.NoPathInBoth | app/scanners/technologies/javascript.py:17-20 | no path is listed both as JavaScript and as TypeScript |
| ReadmeScanner.ScanReadme | app/scanners/scan_readme.py:6-40 | the readmes are exactly the regular, readable, non-blank files whose upper-cased name starts with "README", in scan order, and has_readme holds exactly when there is one |
| ReadmeScanner.TitleIsFirstLine | app/scanners/scan_readme.py:22-25 | a README's title is a non-empty first line of its stripped text: a prefix holding no line break that ends at a line break or at the end |
| RepoFiles.Suffix | app/scanners/technologies/javascript.py:17 | a path suffix is empty, or a final "." followed by at least one character and no further ".", strictly shorter than the name |
| RepoFiles.Collect | app/scanners/scan_readme.py:10-35 | a value is collected exactly when it is made from an entry that passes the test |
| RepoFiles.CollectEmpty | app/scanners/scan_readme.py:38 | nothing is collected exactly when no entry passes the test |
| RepoFiles.PathsWhere | app/scanners/technologies/docker.py:43-57 | a path is listed exactly when it is the path of an entry that passes the test |
| RepoFiles.PathsWhereEmpty | app/scanners/technologies/docker.py:59 | no path is listed exactly when no entry passes the test |
| RepoFiles.DisjointPaths | app/scanners/technologies/javascript.py:17-20 | with distinct paths, two tests that no entry passes together list no common path |
| RepoFiles.ListBucket | app/scanners/technologies/docker.py:66-70 | a bucket holds its list, its count is the list's length, and it is detected exactly when the list is not empty |
| FileTree.KeyLessTransitive | app/services/file_tree_service.py:26 | the sort key order, directories first and then by lower-cased name, is transitive |
| FileTree.KeyLessIrreflexive | app/services/file_tree_service.py:26 | no entry sorts strictly before itself |
| FileTree.InsertEntry | app/services/file_tree_service.py:26 | inserting an entry into a sorted listing keeps it sorted and adds exactly that entry |
| FileTree.SortEntries | app/services/file_tree_service.py:25-26 | the sorted listing is ordered by the sort key and holds the same entries, as many as before |
| FileTree.SortEntriesPermutes | app/services/file_tree_service.py:25-26 | sorting the listing is a permutation of it |
| FileTree.FilterKeySorted | app/services/file_tree_service.py:28-36 | skipping hidden and noise entries keeps the listing sorted |
| FileTree.TreeOf | app/services/file_tree_service.py:13-44 | a node keeps its name and path, is a "directory" exactly when the path is one, and an unreadable directory has no children |
| FileTree.ChildrenOf | app/services/file_tree_service.py:28-38 | one child per listed entry |
| FileTree.ChildrenOfEach | app/services/file_tree_service.py:38 | the k-th child is the tree of the k-th entry, at the entry's path joined below the parent's |
| FileTree.GetFileTree | app/services/file_tree_service.py:6-11 | the root node is named by the base name of the root path, a name without "/", and carries that path |
| FileTree.BuildTree | app/services/file_tree_service.py:13-44 | the recursive builder computes exactly the tree of the path |
| FileTree.BuildEach | app/services/file_tree_service.py:28-38 | the loop over a listing builds exactly the children of its shown entries |
| FileTree.AddChild | app/services/file_tree_service.py:29-38 | one entry adds its subtree exactly when it is shown |
| FileTree.ChildrenListed | app/services/file_tree_service.py:20-42 | a readable directory's children are in sort-key order, none hidden or noise, and are exactly the trees of its shown entries |
| SocketManagement.RemoveFirst | app/core/socket_manager.py:30-31 | removing a socket that is not listed changes nothing |
| SocketManagement.RemoveFirstOnce | app/core/socket_manager.py:31 | removing a listed socket takes out exactly one occurrence |
| SocketManagement.TableStaysValid | app/core/socket_manager.py:19-54 | connect, disconnect and broadcast never leave a project with an empty list |
| SocketManagement.DisconnectEffect | app/core/socket_manager.py:28-34 | disconnect removes one occurrence of a listed socket, changes nothing for an unlisted one, and leaves other projects alone |
| SocketManagement.ConnectThenDisconnect | app/core/socket_manager.py:19-34 | disconnecting a socket just connected restores the table, including dropping a project created for it |
| SocketManagement.BroadcastKeepsReached | app/core/socket_manager.py:36-54 | after a broadcast the project lists exactly the sockets the message reached, in order, and other projects are unchanged |
| SocketManagement.FailedSendDisconnects | app/core/socket_manager.py:51-54 | a failed send removes that socket from the remaining list and nothing else |
| SocketManagement.SocketManager.constructor | app/core/socket_manager.py:15-17 | the table starts empty |
| SocketManagement.SocketManager.Connect | app/core/socket_manager.py:19-26 | the socket is appended to its project's list, created when absent |
| SocketManagement.SocketManager.Disconnect | app/core/socket_manager.py:28-34 | the socket is removed from its project, and the project is dropped when its list empties |
| SocketManagement.SocketManager.Broadcast | app/core/socket_manager.py:36-54 | the message goes to a snapshot of the project's list; the sockets it reached are returned and are all that stay connected |
| SocketManagement.SocketManager.Send | app/core/socket_manager.py:48-54 | one send keeps the socket when delivered, and disconnects it otherwise |
| GithubUrl.SlashRun | client/src/hooks/useGithub.ts:9 | the greedy `[^/]+` run: the longest prefix without "/", ending at a "/" or at the end |
| GithubUrl.SlashRunAt | client/src/hooks/useGithub.ts:9 | a slash-free prefix followed by "/" is exactly the greedy run |
| GithubUrl.FirstMatch | client/src/hooks/useGithub.ts:10 | the search returns the leftmost position where the pattern matches, or none when it matches nowhere |
| GithubUrl.MatchSpan | client/src/hooks/useGithub.ts:9-10 | a match spans "github.com/", the owner, "/" and the repository name |
| GithubUrl.MatchOccurs | client/src/hooks/useGithub.ts:9-10 | a match is an occurrence of the pattern whose repository group runs to a "/" or the end |
| GithubUrl.MatchAtIff | client/src/hooks/useGithub.ts:9-10 | the pattern matches at a position exactly when an occurrence starts there |
| GithubUrl.ReplaceKeepsSlashFree | client/src/hooks/useGithub.ts:12 | removing the first ".git" keeps a name free of "/" |
| GithubUrl.ParseNullIff | client/src/hooks/useGithub.ts:8-15 | the parse gives null exactly when the URL holds no "github.com/<owner>/<repo>" occurrence |
| GithubUrl.NoEarlierOccurrence | client/src/hooks/useGithub.ts:10 | no occurrence starts before the first match |
| GithubUrl.ParseLeftmost | client/src/hooks/useGithub.ts:8-13 | a parsed reference comes from the leftmost occurrence, with greedy slash-free owner and repository and the first ".git" of the repository removed |
| GithubUrl.ParseBare | client/src/hooks/useGithub.ts:8-13 | "github.com/<owner>/<repo>" parses back to that owner and that repository without its first ".git" |
| AnalysisView.FindIndex | client/src/components/AnalysisView.tsx:90-93 | the index of the first phase with the stage's id, or -1 exactly when no phase has it |
| AnalysisView.FindOwnIndex | client/src/components/AnalysisView.tsx:98 | with distinct ids, each phase is found at its own position |
| AnalysisView.StatusByPosition | client/src/components/AnalysisView.tsx:95-106 | a phase is active at the current index, completed before it or once the pipeline is completed, and pending otherwise |
| AnalysisView.PhaseIdsDistinct | client/src/components/AnalysisView.tsx:31-56 | the three phases, mining, planning and writing, have distinct ids |
| AnalysisView.AtMostOneActive | client/src/components/AnalysisView.tsx:95 | at most one phase is active at a time |
| AnalysisView.PhaseStatuses | client/src/components/AnalysisView.tsx:90-106 | when completed every phase is done; when idle, started or failed every phase is pending; during mining, planning or writing the earlier phases are done, that phase is active and the later ones are pending |
| AnalysisView.OrElse | client/src/components/AnalysisView.tsx:117 | `content \|\| fallback`: the content when it is not empty, the fallback otherwise |
| AnalysisView.FirstOr | client/src/components/AnalysisView.tsx:112 | `messages[0]?.content`: the first item, or empty when there is none |
| AnalysisView.ThoughtCaption | client/src/components/AnalysisView.tsx:108-140 | every thought gets a non-empty caption |
| AnalysisView.CaptionShowsContent | client/src/components/AnalysisView.tsx:108-139 | a request shows its (first) message content or "Analizando...", a tool call its first tool's name or "Unknown", a response its content or "OK" |
| AnalysisContext.ReceivedStep | client/src/context/AnalysisContext.tsx:98-122 | one socket message appends the thought it carries, sets the plan to the tree its plan message carries (clearing it when that plan has no tree), and leaves the selection screen's state alone |
| AnalysisContext.MessagesAppendThoughts | client/src/context/AnalysisContext.tsx:119-120 | after a run of messages the thoughts are the earlier ones followed by every thought sent, in order |
| AnalysisContext.LastPlanIndex | client/src/context/AnalysisContext.tsx:116-117 | the position of the last plan message, or none when no message carries a plan |
| AnalysisContext.LastPlanWins | client/src/context/AnalysisContext.tsx:116-117 | after a run of messages the plan is the tree carried by the last plan message (none when that plan had no tree), or the earlier plan when none came |
| AnalysisContext.UnknownMessagesIgnored | client/src/context/AnalysisContext.tsx:103-125 | messages of unknown type and messages that fail to parse change nothing |
| AnalysisContext.ProjectId | client/src/context/AnalysisContext.tsx:151 | the project id is the repository's name when it is non-empty, else "simulation_demo"; never empty |
| AnalysisContext.StartedRunHoldsItsThoughts | client/src/context/AnalysisContext.tsx:141-154 | a started run, whatever came before, holds exactly the thoughts and the last plan the server sends in it, and stays analyzing |
| AnalysisContext.StopAndResetSettle | client/src/context/AnalysisContext.tsx:188-206 | stopping and resetting are idempotent, stopping after a reset changes nothing, and a reset restores the initial state except for the repository, message and progress |
| AnalysisContext.ProgressMessageKept | client/src/context/AnalysisContext.tsx:213-216 | updateProgress sets the progress, replaces the message only with a non-empty one, and changes nothing else |
| AnalysisContext.AnalysisProvider.constructor | client/src/context/AnalysisContext.tsx:56-75 | the provider starts idle, "Esperando inicio...", no progress, plan or thoughts, default options and nothing selected |
| AnalysisContext.AnalysisProvider.OnMessage | client/src/context/AnalysisContext.tsx:98-126 | one received message updates the state as that message's type says |
| AnalysisContext.AnalysisProvider.OnSocketError | client/src/context/AnalysisContext.tsx:128-132 | a socket error sets the stage to error with the connection-error message |
| AnalysisContext.AnalysisProvider.StartAnalysis | client/src/context/AnalysisContext.tsx:141-186 | the run is reset and the socket opened; the project id is returned, and a failed trigger ends in the error stage with its message |
| AnalysisContext.AnalysisProvider.Begin | client/src/context/AnalysisContext.tsx:143-154 | the run's fields are reset, the stage is started and the socket is held |
| AnalysisContext.AnalysisProvider.StopAnalysis | client/src/context/AnalysisContext.tsx:188-195 | analysis stops, the stage is idle and the socket is closed and dropped |
| AnalysisContext.AnalysisProvider.ResetAnalysis | client/src/context/AnalysisContext.tsx:197-206 | a stop plus the selection, options, plan and thoughts cleared |
| AnalysisContext.AnalysisProvider.UpdateStage | client/src/context/AnalysisContext.tsx:208-211 | the stage and message are set and nothing else |
| AnalysisContext.AnalysisProvider.UpdateProgress | client/src/context/AnalysisContext.tsx:213-216 | the progress is set, and the message only when a non-empty one is given |
| AnalysisContext.AnalysisProvider.SetPlan | client/src/context/AnalysisContext.tsx:218-220 | the plan is set and nothing else |
| AnalysisContext.AnalysisProvider.AddThought | client/src/context/AnalysisContext.tsx:222-224 | the thought is appended and nothing else |
| Conversation.LastKwargs | app/agents/miner/agent.py:41-68 | a closure that stores its keyword arguments holds none exactly when its tool was never invoked, and otherwise the arguments of one of its invocations |
| Text.Strip | app/scanners/scan_readme.py:22 | `str.strip()`: the result neither starts nor ends with whitespace, and is empty exactly when the text is all whitespace |
| Text.SplitLines | app/scanners/scan_readme.py:25 | `str.splitlines()`: a non-empty text has at least one line, and no line holds a line break |
| Text.FirstLine | app/scanners/scan_readme.py:25 | the first line is the text up to its first line break |
| Text.BeforeFirst | app/scanners/technologies/python.py:78-87 | `s.split(sep)[0]`: a prefix of the text that is all of it or is followed by the separator |
| Text.BeforeFirstFree | app/scanners/technologies/python.py:78-87 | the part before the first separator holds no separator |
| Text.IndexOf | app/agents/agent_executor.py:172 | the first position where a substring occurs, none exactly when it does not occur |
| Text.HeadAndBase | app/services/file_tree_service.py:10 | `os.path.basename`: a path is its head, ending in "/" or empty, followed by its base name, which holds no "/" |
| Sorting.Sort | app/scanners/technology_scanner.py:93 | `sorted`: the result is ordered and a permutation of the input |
| Sorting.SetList | app/scanners/technology_scanner.py:93 | `sorted(list(set(xs)))`: ordered, without repeats, holding exactly the items of the input |
| Sorting.SortedListUnique | app/scanners/technology_scanner.py:93 | two sorted lists without repeats that hold the same items are equal |
| Sorting.TakeSortedDistinct | app/scanners/technology_scanner.py:95 | the first n items of a sorted list without repeats are still sorted, without repeats, and drawn from it |
| SeqUtil.Filter | app/core/socket_manager.py:48-54 | a filtered list keeps exactly the items that pass the test, and is no longer than the input |
| SeqUtil.FilterAppend | app/core/socket_manager.py:48-54 | filtering a concatenation filters each part |
| SeqUtil.Firsts | app/agents/discovery_pipeline.py:61 | the keys of a dict in insertion order, as the first occurrences of a list: no repeats, and the same items as the list |

## Left out

- The language-model services (OpenAI, Ollama, Gemini's `genai` calls) are a function parameter. Their network behaviour and rate limits are not modelled.
- `json.loads`, `json.dumps` and Python's `str()` of a value are an abstract codec. The model proves nothing about JSON syntax, and JSON numbers are integers only (no floats).
- tiktoken's encode and decode are abstract functions. The model makes no claim that truncated text counts at most `max_tokens` tokens, because the marker is appended after the cut.
- tiktoken's `encode` raises on text that holds a disallowed special token (such as `<|endoftext|>`). The abstract encoder always succeeds, so that exception is not modelled.
- Tokenizer.TruncateWith: its contract states only that text over the limit ends with the truncation marker. That the rest is a prefix of the text is proved in `Tokenizer.TruncatedIsPrefix`, and only under the assumption that decode inverts encode and distributes over concatenation.
- pydantic's `create_model`, `model_json_schema` and model validation are abstract. Validation is modelled by its effect on the fields the code reads (`Accepted`, `Validated`, `ParseMinerOutput`, `ParseSubsystems`).
- Filesystem reads, `rglob` and `os.scandir` are inputs. The walk order they yield is taken as given; writing pages and plans to disk (`save_to_json`, `aiofiles`) is a result the model returns, not I/O.
- Async plumbing is sequential here: `await`, `asyncio.sleep` pacing and the retry waits (recorded as a schedule of seconds). The `_emit` callbacks and logging are left out.
- Python set iteration order (`list(set(...))` in the Architect's topic summary and in the unique-module list) is hash-based. The model enumerates those sets in sorted order.
- Python's `sorted` with a key is stable, but the file tree's sort is proved only to order entries by its key and to permute them. Entries with equal keys (the same lower-cased name and kind) may appear in any order.
- FileTree.BuildTree: `entries.sort(...)` works in place on a Python list. The model sorts a sequence value and then builds the children from it.
- An `AgentExecution` tool name that is not a string (salvaged from text as a dict or a list) raises `TypeError` when it is looked up. The model propagates that as an error result and does not name the exception type.
- The technology scanners catch any exception a scanner raises. In the model only the Python scanner's `pyproject.toml` handling can raise (a malformed table); a read or decode error of another file is modelled as the file being unreadable.
- WebSocket `accept()` and `send_json` are not modelled: a connect always succeeds, and a broadcast takes a `delivered` predicate saying which sends succeed.
- LlmAgent.ToolExecutor.Run and ToolExecution.ToolExecutor.Run: a message's content is an `Option`, so an absent `content` key and a `null` one are both `None`. A final reply whose content is `null` returns "" in the model, where `.get("content", "")` returns `None` in the source.
- Text.Lower, Text.Upper and Text.Capitalize map only the ASCII letters, while Python's `lower`, `upper` and `capitalize` map all of Unicode. So non-ASCII names are compared as written by `DatabaseScanner.IsBinary` and `DatabaseScanner.IsScript` (the suffix check), `ReadmeScanner.Recorded` (the "README" prefix), `FileTree.KeyLess` (the name order), `TechnologyScanner.EntryLines` (the upper-cased ecosystem name) and `DocumentationService.PageType` and `DocumentationService.Keywords`.
- GeminiClient.GenerateResponse: the `max_tokens` and `temperature` arguments go into the generation config in the source. The model passes only the response MIME type to the service, so their effect on the reply is not modelled.
- RunPipeline.RunScript: a `Crashed` outcome carries only the error. Page files the loop had already written stay on disk in the source, but the outcome does not list them.
- RunPipeline.RunScript: the script creates `wiki_docs` only when it plans afresh. When a saved plan is reused, the model assumes the directory exists; in the source a missing one makes every page write raise, and the loop's handler logs each failure.
- Client: React's batching of state updates and the interleaving of asynchronous callbacks are not modelled. Each handler is one atomic state change.
- Client: the WebSocket's `readyState` is reduced to whether a socket is held (`socketOpen`). Opening, closing and reconnecting are not modelled.
- Client: JSX, icons, colours, progress percentages (floating point) and the other components are out of scope, and so are the raw setters for the selection screen's fields.
- Client: a WebSocket message that fails `JSON.parse`, and a `plan_generated` message with no `plan` at all, are both one `Unparsable` message that changes nothing. The latter raises a `TypeError` that the handler catches. A `plan_generated` message whose `plan` is present but has no `tree` is modelled: it clears the plan.
- Client: the fetch functions of `useGithub` (`fetchRepoDetails`, `fetchBranches`) are network I/O and are left out.
- Client: stage strings outside the `PipelineStage` union are not modelled; the stage is one of the union's seven values.
- Components whose wiring does not match across files are modelled each against its own code:
  - the documentation service calls a Miner `analyze_batch` that `MinerAgent` does not define, so the batch analysis is a parameter of `DocumentationService`;
  - `LLMFactory` accepts only "ollama", so the service's request for "openai" is the error path (`DocumentationService.OpenAiRefused`);
  - Gemini's tool instruction asks the model for a "function" key, while the executors read "name".
- JavaScript framework detection is not implemented in `javascript.py` and is not modelled.
- Persistence (the ORM models, storage and fact services, the database-backed tools), HTTP routers, git, workspace handling and the scripted simulation are outside the modelled core.
