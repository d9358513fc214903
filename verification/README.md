# WonderfulAI pharmacy agent — a Dafny model of the agent loop and its tools

The backend streams a conversation to a language model (OpenAI or Gemini). It executes the
tools the model calls against a pharmacy database and relays everything to the client as a
stream of events: `text_delta`, `tool_args_delta`, `tool_call`, `tool_result`, `done` and
`error`. This project models that core as pure Dafny functions:

- **Dispatcher** (`dispatcher.dfy`). `stream_agent` reads `MODEL_PROVIDER` and
  `MAX_TOOL_ROUNDS` and hands the conversation to one adapter.
- **Adapters** (`openai_agent.dfy`, `gemini_agent.dfy`). Each models the round loop of its
  `stream`. The OpenAI adapter accumulates index-addressed tool-call fragments. The Gemini
  adapter has its own call ids, `gemini-{name}-{position}-{round}`, and converts the incoming
  messages to Gemini contents. Both translate the tool registry into the shape their provider
  expects.
- **Shared loop vocabulary** (`agent_core.dfy`). Events, the terminal-event and call/result
  pairing invariants, the round-limit message, and sequential tool execution.
- **Tools** (`tools.dfy`, `queries.dfy`, `stock_queries.dfy`). The eleven tools: medication
  lookup and classification, `_like`, stock checks, and the refill state machine. They also
  cover the SQL condition and parameter builders of the flexible queries, the per-medication
  grouping of `query_medications_with_stock`, and the guards of
  `query_stock_multiple_stores`.
- **`run_tool`** (`run_tool.dfy`). Tool lookup, the best-effort usage counter, Python's
  keyword-argument binding, and the `MISSING_REQUIRED_ARGUMENT` classification.
- **Helpers** (`sql.dfy`, `json.dfy`, `text.dfy`, `wrappers.dfy`, `tool_specs.dfy`).
  Placeholder/parameter alignment, JSON values with Python truthiness, the Python string
  operations the code relies on, and the registered tool specifications.

Providers are scripted. A provider is a function from the request to the chunks it streams,
plus an optional failure that ends the stream. SQL is evaluated by a `Catalog` of query
oracles that receives the exact statement text and parameter tuple the code builds. The
mutable tables (prescriptions, refill requests, tool statistics) are a `Store` value that
tools return updated. Tool results are a `ToolOutput` datatype with one variant per result
dictionary shape.

## Model

| member | source | states |
|---|---|---|
| AgentCore.ExecuteCalls | backend/app/agents/openai_agent.py:110-130 | tools run in call order; a raising tool stops the batch, so a batch completes exactly when every call returned, and each history entry is built from its call and its own result |
| AgentCore.ExecuteCallsThreads | backend/app/agents/openai_agent.py:110-130 | each tool runs on the state the previous one left: result `k` is what the tool of call `k` returned there, the phase's exception is the one the first raising tool raised, and the final state is the one after the last tool that ran |
| AgentCore.CallResultPairsShape | backend/app/agents/openai_agent.py:120-123 | the events of executed calls alternate `tool_call` and `tool_result` for the same call, with no terminal event among them |
| AgentCore.ExecutionEventsShape | backend/app/agents/gemini_agent.py:173-183 | the events of a tool batch, including a batch cut short by a raising tool, contain no terminal event and pair every result with the call before it |
| AgentCore.ReturningToolsRunAll | backend/app/agents/openai_agent.py:110-130 | when no tool raises, every pending call is executed |
| AgentCore.LimitMessageNamesLimit | backend/app/agents/openai_agent.py:141 | the round-limit message determines the limit it reports |
| Text.IntToStringInjective | backend/app/agents/openai_agent.py:141 | `str()` of an integer determines the integer, so the text an f-string prints names one value |
| AgentCore.TextsAppend | backend/app/agents/openai_agent.py:77-79 | the assistant text of a stream is the concatenation of its `text_delta` deltas, piece by piece |
| AgentCore.PrependKeepsOneTerminal | backend/app/agents/openai_agent.py:131-141 | streaming events followed by a run that ends with one terminal event still end with exactly one terminal event |
| AgentCore.ConcatKeepsPairing | backend/app/agents/openai_agent.py:120-123 | joining two well-paired event streams keeps every result right after its call |
| OpenAIAgent.ToOpenAITools | backend/app/agents/openai_agent.py:29-48 | one OpenAI tool per function spec, in registry order, each carrying that spec's declaration; non-function specs are skipped |
| OpenAIAgent.Grow | backend/app/agents/openai_agent.py:87-92 | placeholders `{"id": "", name "", arguments ""}` are appended until the index exists; existing slots are kept |
| OpenAIAgent.ApplyDelta | backend/app/agents/openai_agent.py:84-102 | a fragment overwrites the id and name only when non-empty and appends its argument text to the indexed slot; all other slots are unchanged |
| OpenAIAgent.IngestEvents | backend/app/agents/openai_agent.py:70-104 | a round's stream yields only streaming events whose texts spell the assistant content, and only `text_delta` events when no tool call accumulated |
| OpenAIAgent.IngestSlots | backend/app/agents/openai_agent.py:82-102 | each accumulated call is the last non-empty id and name sent for its index and the concatenation of its argument fragments |
| OpenAIAgent.BeyondWidth | backend/app/agents/openai_agent.py:87-92 | an index never addressed contributes no id, name or argument text |
| OpenAIAgent.IngestArgsDeltas | backend/app/agents/openai_agent.py:101-104 | one `tool_args_delta` per non-empty argument fragment, labelled with the id its slot had at that moment |
| OpenAIAgent.PendingCalls | backend/app/agents/openai_agent.py:110-118 | one pending call per accumulated slot, in index order, with the slot's id and name; its arguments are the decoded JSON, or `{}` when `json.loads` fails |
| OpenAIAgent.InitialHistory | backend/app/agents/openai_agent.py:55 | the conversation starts as each message reduced to its role and content, in order |
| OpenAIAgent.Round | backend/app/agents/openai_agent.py:59-139 | a round either finishes with exactly one terminal event last or continues with a longer conversation and no terminal event; results always follow their calls |
| OpenAIAgent.Conclude | backend/app/agents/openai_agent.py:106-139 | after the stream, a failure gives `error`, no tool call gives `done`, and tool calls go to execution |
| OpenAIAgent.ToolPhase | backend/app/agents/openai_agent.py:107-139 | executing a round's calls ends the invocation exactly when a tool raised, with the execution events then one `error` carrying that tool's message; otherwise it continues with the assistant message and replies appended |
| OpenAIAgent.Rounds | backend/app/agents/openai_agent.py:57-141 | the loop over rounds always ends with exactly one terminal event, the last event, and pairs every result with its call |
| OpenAIAgent.Stream | backend/app/agents/openai_agent.py:54-141 | `stream` emits exactly one terminal event, as its last event, and every `tool_result` directly follows the `tool_call` with the same id and name |
| OpenAIAgent.NoToolCallsEndsWithDone | backend/app/agents/openai_agent.py:131-134 | a clean round without tool calls yields its text deltas then `done`, runs no tool and leaves the state unchanged |
| OpenAIAgent.ProviderFailureEndsWithError | backend/app/agents/openai_agent.py:136-139 | a provider failure ends the invocation with the round's streamed events followed by `error` carrying the failure text |
| OpenAIAgent.ToolFailureEndsWithError | backend/app/agents/openai_agent.py:110-139 | a tool that raises ends the invocation: the streamed events, the pairs of the calls that returned, the raising call's `tool_call`, then one `error` with the message that tool raised; no later round runs |
| OpenAIAgent.ToolRoundAppendsHistory | backend/app/agents/openai_agent.py:107-130 | a continuing round appends the assistant message and one tool reply per call, and emits call/result pairs in slot order with parsed arguments |
| OpenAIAgent.ToolPhaseContinues | backend/app/agents/openai_agent.py:107-130 | a completed execution appends exactly the assistant message and the replies, and keeps the earlier history and events as a prefix |
| OpenAIAgent.RoundContinues | backend/app/agents/openai_agent.py:106-130 | a provider that always calls tools whose tools always return makes every round continue |
| OpenAIAgent.BudgetExhaustion | backend/app/agents/openai_agent.py:57-141 | when every round calls tools, the run never says `done` and ends with the round-limit error naming the limit |
| GeminiAgent.ToGeminiTools | backend/app/agents/gemini_agent.py:23-43 | at most one tool group, holding the function declarations in registry order |
| GeminiAgent.ToGeminiToolsGroups | backend/app/agents/gemini_agent.py:39-43 | a group exists exactly when some spec is a function, and it declares exactly the function specs |
| GeminiAgent.RegisteredTools | backend/app/agents/gemini_agent.py:46 | `GEMINI_TOOLS` is one group declaring all eleven registered tools |
| GeminiAgent.GeminiRole | backend/app/agents/gemini_agent.py:73-78 | `assistant` becomes `model` and every other role, or none, becomes `user` |
| GeminiAgent.ConvertMessages | backend/app/agents/gemini_agent.py:61-91 | one text turn per message, in order, with the mapped role and the content (empty when absent) |
| GeminiAgent.SplitAtLastDash | backend/app/agents/gemini_agent.py:152 | the digits after a final dash, and what precedes it, can be read back |
| GeminiAgent.CallIdInjective | backend/app/agents/gemini_agent.py:152 | a call id `gemini-{name}-{position}-{round}` determines the tool name, the position and the round |
| GeminiAgent.IngestFacts | backend/app/agents/gemini_agent.py:120-160 | a round's stream yields only streaming events spelling the text; pending calls are the named function calls numbered by position, each announced by one `tool_args_delta` of its serialised arguments |
| GeminiAgent.IngestEvents | backend/app/agents/gemini_agent.py:120-125 | the streamed events are non-terminal and their texts spell the assistant text |
| GeminiAgent.IngestPending | backend/app/agents/gemini_agent.py:128-153 | unnamed function calls are skipped; the others become pending calls with ids numbered by their position |
| GeminiAgent.IngestArgsDeltas | backend/app/agents/gemini_agent.py:155-160 | each pending call has exactly one `tool_args_delta` under its id with its serialised arguments |
| GeminiAgent.Round | backend/app/agents/gemini_agent.py:111-207 | a round finishes with exactly one terminal event last or continues with longer contents; results always follow their calls |
| GeminiAgent.Conclude | backend/app/agents/gemini_agent.py:162-207 | a failure gives `error`, no pending call gives `done`, and pending calls go to execution |
| GeminiAgent.ToolPhase | backend/app/agents/gemini_agent.py:163-207 | executing the pending calls ends the invocation exactly when a tool raised, with the execution events then one `error` carrying that tool's message; otherwise it continues with the model text turn (when there is text) and one response per call |
| GeminiAgent.Rounds | backend/app/agents/gemini_agent.py:108-215 | the loop always ends with exactly one terminal event, the last, and pairs every result with its call |
| GeminiAgent.Stream | backend/app/agents/gemini_agent.py:94-215 | `stream` emits exactly one terminal event, as its last event, and every `tool_result` directly follows its `tool_call` |
| GeminiAgent.NoCallsEndsWithDone | backend/app/agents/gemini_agent.py:199-202 | a clean round without named function calls yields its text deltas and `done` |
| GeminiAgent.StreamFailureEndsWithError | backend/app/agents/gemini_agent.py:204-207 | a failing stream or argument serialisation ends the run with the streamed events then `error` with the exception text |
| GeminiAgent.ToolFailureEndsWithError | backend/app/agents/gemini_agent.py:173-207 | a tool that raises ends the invocation: the streamed events, the pairs of the calls that returned, the raising call's `tool_call`, then one `error` with the message that tool raised; no later round runs |
| GeminiAgent.ToolPhaseContinues | backend/app/agents/gemini_agent.py:163-198 | a completed execution appends the model text turn exactly when there is text, then one function response per call naming the tool |
| GeminiAgent.IngestNumbered | backend/app/agents/gemini_agent.py:152-153 | the pending calls of round `k` carry ids `gemini-{name}-{i}-{k}` for their positions `i` |
| GeminiAgent.PhaseIds | backend/app/agents/gemini_agent.py:152-183 | the tool calls of one round carry distinct ids, all of that round |
| GeminiAgent.RoundIds | backend/app/agents/gemini_agent.py:152-183 | the call ids a round emits are distinct and name that round |
| GeminiAgent.ConcludeIds | backend/app/agents/gemini_agent.py:162-202 | concluding a round emits only distinct call ids of that round |
| GeminiAgent.ToolPhaseIds | backend/app/agents/gemini_agent.py:173-183 | executing a round's calls emits only distinct call ids of that round |
| GeminiAgent.JoinRoundIds | backend/app/agents/gemini_agent.py:108-153 | ids of round `k` followed by ids of later rounds stay distinct |
| GeminiAgent.UniqueCallIds | backend/app/agents/gemini_agent.py:108-215 | across a whole invocation no two `tool_call` events share a call id |
| GeminiAgent.RoundContinues | backend/app/agents/gemini_agent.py:162-198 | a model that always calls tools whose tools always return makes every round continue |
| GeminiAgent.BudgetExhaustion | backend/app/agents/gemini_agent.py:108-215 | when every round calls tools, the run never says `done` and ends with the round-limit error |
| ToolSpecs.FunctionDecls | backend/app/agents/openai_agent.py:33-46 | the declarations of the function specs, never more than the specs |
| ToolSpecs.FunctionDeclsAppend | backend/app/agents/gemini_agent.py:27-37 | the conversion distributes over concatenated registries |
| ToolSpecs.FunctionDeclsMembers | backend/app/agents/gemini_agent.py:27-37 | a declaration is produced exactly when some function spec declares it |
| ToolSpecs.FunctionDeclsEmpty | backend/app/agents/gemini_agent.py:39-40 | no declaration exactly when no spec is a function |
| ToolSpecs.RegistryWellFormed | backend/app/tools.py:736-895 | every registered spec is a named function with parameters |
| Tools.Like | backend/app/tools.py:10-11 | `_like` returns for exactly the string arguments, and its pattern is wrapped in `%` |
| Text.Strip | backend/app/tools.py:11 | `str.strip()`: the text is the result surrounded by whitespace only, and the result neither starts nor ends with whitespace |
| Tools.LikeWrapsTrimmedText | backend/app/tools.py:10-11 | the text between the wildcards is the argument with surrounding whitespace removed, and starts and ends with non-whitespace |
| Tools.Ingredients | backend/app/tools.py:113-114 | the ingredient list is empty exactly when the column is null or empty |
| Tools.IngredientsRoundTrip | backend/app/tools.py:113-114 | joining the listed ingredients with `", "` gives back the column text |
| Text.JoinSplit | backend/app/tools.py:114 | `str.split(sep)` cuts a text into pieces that `sep.join` puts back together |
| Tools.Listed | backend/app/tools.py:127-128 | a present, non-empty warnings or contraindications column becomes the one-element list of its own text; a missing or empty one becomes the empty list |
| Tools.Describe | backend/app/tools.py:111-131 | a found medication keeps the row's ids, names, form and strength, splits the ingredients, reads `rx_required` as a flag, defaults the directions to empty, lists the warnings and contraindications only when present, and names the synthetic catalog as its source |
| Json.ArgOr | backend/app/tools.py:287-295 | an argument that is passed is used as given, and an omitted one takes the declared default |
| Tools.Classify | backend/app/tools.py:70-131 | one match is found; several are ambiguous with the first at most five offered; none gives the catalogue's fuzzy candidates for the name when there are any, and otherwise the `brand (generic)` labels of the medications sharing the ingredient text, in row order |
| Tools.GetMedicationByName | backend/app/tools.py:60-68 | raises for a non-string name; otherwise the rows matching the `_like` pattern are classified as above |
| Tools.CheckStockAvailability | backend/app/tools.py:240-258 | `NOT_FOUND` exactly when no inventory row exists; otherwise it reports the quantity, `in_stock` exactly when it is positive |
| Tools.Summaries | backend/app/tools.py:171-185 | one summary per catalog row, in order |
| Tools.ListMedications | backend/app/tools.py:133-185 | raises exactly on a truthy non-string search term; otherwise the medications are exactly the summaries of the rows of the query with the `_like` pattern (when given) and the limit, 20 by default: ids, names, ingredients, form, strength and the `rx_required` flag, in row order |
| Tools.ListUserPrescriptions | backend/app/tools.py:260-285 | echoes the user id and lists one entry per joined row, with the `brand (generic)` label and `rx_required` as a flag |
| Tools.ListStores | backend/app/tools.py:546-572 | raises exactly on a truthy non-string city; with a city it lists the stores matching the city's `%…%` pattern; without one it lists every store |
| Tools.RequestPrescriptionRefill | backend/app/tools.py:669-694 | the first failing check (not found, other user, no refills, expired) rejects without writing; acceptance inserts one submitted request `RR-{timestamp}-{id}` and decrements only that prescription |
| Tools.RefillAcceptedIff | backend/app/tools.py:670-681 | a refill is accepted exactly when the prescription exists, belongs to the user, has refills left and has not expired |
| Tools.RefillKeepsCountsNonNegative | backend/app/tools.py:677-693 | refills never drive a remaining count below zero |
| Tools.RefillIdNamesPrescription | backend/app/tools.py:684-685 | with timestamps of one width, a refill request id determines the prescription and the timestamp |
| Sql.Add | backend/app/tools.py:480-486 | a condition is appended together with one parameter per placeholder, in order |
| Sql.AddKeepsAligned | backend/app/tools.py:304-320 | appending a condition with its values keeps placeholders and parameters aligned |
| Sql.WhereFallback | backend/app/tools.py:323 | the WHERE clause is `1=1` exactly when there is no condition |
| Sql.AlignedConcat | backend/app/tools.py:389-422 | aligned placeholder lists stay aligned when concatenated in the same order |
| Sql.ListAligned | backend/app/tools.py:483-486 | an `IN (%s,...)` list has one placeholder per store id, each bound to that id |
| Queries.AddWhen | backend/app/tools.py:610-620 | an unconditional filter step adds its condition exactly when its argument is present and passes a raise through |
| Queries.LikeSelect | backend/app/tools.py:199-201 | one `_like` selector raises exactly when its argument is truthy and not a string, and adds its condition exactly when the argument is truthy |
| Queries.AddLikesSkip | backend/app/tools.py:199-207 | selectors whose arguments are all falsy add nothing |
| Queries.AddLikesRaises | backend/app/tools.py:199-207 | the `_like` selectors raise exactly when some truthy selector is not a string |
| Queries.AddLikesConditions | backend/app/tools.py:199-207 | the conditions added are those of the truthy selectors, in order |
| Queries.AddLikesAligned | backend/app/tools.py:199-207 | the `_like` selectors keep placeholders and parameters aligned |
| Queries.AddLikesShape | backend/app/tools.py:304-320 | raising, the conditions added and alignment of the selector fold together |
| Queries.PresentEmpty | backend/app/tools.py:209-211 | no selector condition is added exactly when no selector is truthy |
| Queries.UserFilterShape | backend/app/tools.py:188-211 | the user filter raises exactly on a bad selector, holds the user id condition then the selectors, aligned, and is empty exactly without a selector |
| Queries.UserConditionsEmpty | backend/app/tools.py:196-211 | the user conditions are empty exactly when none of `user_id`, name, email and phone is truthy |
| Queries.SearchUsers | backend/app/tools.py:188-237 | raises exactly on a truthy non-string name, email or phone; the guard error is returned exactly when no selector is given |
| Queries.SearchUsersGuardRunsNoQuery | backend/app/tools.py:209-211 | without a selector the guard answers without consulting the database |
| Queries.SearchUsersQuery | backend/app/tools.py:213-237 | with a selector, the conditions are OR-joined and the parameters align with the placeholders |
| Queries.QueryMedicationsFlexible | backend/app/tools.py:287-350 | raises exactly on a truthy non-string text filter; otherwise lists medications |
| Queries.MedicationsQuery | backend/app/tools.py:304-350 | the medications listed are the rows the catalog returns for the filters' conditions joined with AND (`1=1` when there are none), with the parameters in condition order and the limit, 20 by default, last |
| Queries.MedicationStatementAligned | backend/app/tools.py:304-332 | the conditions are the truthy text filters then `rx_required` when given, and the parameters, limit last, align with the placeholders |
| Queries.MedicationWhereFallback | backend/app/tools.py:323 | the medication query's WHERE clause is `1=1` exactly when no filter is given |
| Queries.MedicationConditionsFallback | backend/app/tools.py:304-323 | the conditions the medication arguments ask for join to `1=1` exactly when none is asked for |
| Queries.PrescriptionUserStep | backend/app/tools.py:590-592 | the user condition is added exactly when `user_id` is truthy, with the id as its parameter |
| Queries.PrescriptionMedStep | backend/app/tools.py:594-608 | a truthy `med_id` filters directly; otherwise a truthy `med_name` is resolved, and a name that is not found stops the query |
| Queries.QueryPrescriptionsFlexible | backend/app/tools.py:575-666 | raises exactly on a non-string medication name used for lookup; `MEDICATION_NOT_FOUND` exactly when that lookup does not find one medication |
| Queries.PrescriptionMedStepShape | backend/app/tools.py:594-602 | when the query goes on, the medication condition is added exactly when an id or a name is given, and alignment is kept |
| Queries.PrescriptionTailShape | backend/app/tools.py:610-620 | expiring-soon adds the window and not-expired conditions; `has_refills` adds the positive or zero condition by truthiness; alignment is kept |
| Queries.PrescriptionStatementShape | backend/app/tools.py:587-646 | the prescription conditions follow the argument order, and the parameters, limit 50 by default last, align with the placeholders |
| Queries.PrescriptionsQuery | backend/app/tools.py:587-666 | the prescriptions listed are the rows the catalog returns for the argument conditions joined with AND (`1=1` when there are none), with the parameters in condition order and the limit, 50 by default, last |
| Queries.PrescriptionWhereFallback | backend/app/tools.py:622 | the prescription WHERE clause is `1=1` exactly when no filter is given |
| Queries.PrescriptionConditionsFallback | backend/app/tools.py:587-622 | the conditions the prescription arguments ask for join to `1=1` exactly when none is asked for |
| StockQueries.StoreIdValues | backend/app/tools.py:392-395 | a list binds its items and a string binds its characters; other values raise |
| StockQueries.StoreIdValuesNonEmpty | backend/app/tools.py:392-395 | truthy store ids bind at least one value |
| StockQueries.StockStatementAsWritten | backend/app/tools.py:367-422 | as written, the statement raises exactly on a bad text filter or store list, and otherwise supplies one parameter per placeholder, so the misbinding goes unnoticed by the driver |
| StockQueries.StockStatement | backend/app/tools.py:367-422 | the corrected statement has the same text and placeholders as the code and the same parameters, reordered |
| StockQueries.StockMedFilterShape | backend/app/tools.py:367-389 | the medication filter raises exactly on a bad text filter and stays aligned |
| StockQueries.StockStatementAligned | backend/app/tools.py:389-422 | in the corrected statement every parameter fills the placeholder of its own column |
| StockQueries.StockStatementAsWrittenAlignedWithoutBoth | backend/app/tools.py:367-422 | as written, the binding is right whenever store ids or medication filters are absent |
| StockQueries.StatementParams | backend/app/tools.py:367-422 | both statements have the same placeholders; as written the medication parameters come before the store ids, corrected after them, and the limit is last in both |
| StockQueries.MisboundAsWritten | backend/app/tools.py:372-422 | as written, `search_term` "ibu" with store "S1" puts `%ibu%` first and `S1` fourth, and the binding is misaligned |
| StockQueries.MisboundCorrected | backend/app/tools.py:392-422 | corrected, the same call puts `S1` first, where the store placeholder is, and `%ibu%` fourth, at the ingredient placeholder |
| StockQueries.StockStatementAsWrittenMisbinds | backend/app/tools.py:367-422 | as written, `search_term` "ibu" with store "S1" binds `%ibu%` to the store filter and `S1` to an ingredient placeholder |
| StockQueries.GroupKeys | backend/app/tools.py:427-440 | groups appear once per medication, in order of first appearance |
| StockQueries.GroupStock | backend/app/tools.py:441-446 | each group's stock lists that medication's rows with a real store, in row order |
| StockQueries.GroupSummary | backend/app/tools.py:430-440 | each group's fields are those of its medication's first row |
| StockQueries.FirstSeenFacts | backend/app/tools.py:427-440 | the first-seen ids are distinct and are exactly the ids that occur |
| StockQueries.QueryMedicationsWithStock | backend/app/tools.py:353-451 | raises exactly when the statement does; otherwise groups are keyed in first-seen order, each with its own stock entries; the rows come from the corrected statement |
| StockQueries.StoreListStep | backend/app/tools.py:483-486 | the store list step raises exactly when truthy store ids cannot be bound |
| StockQueries.StoreListStepShape | backend/app/tools.py:483-486 | the store list step keeps the filter aligned and the medication condition and its id first |
| StockQueries.StoresFilterAligned | backend/app/tools.py:480-491 | the store query filters by medication first, then store ids, aligned with its parameters |
| StockQueries.StockMedName | backend/app/tools.py:513-526 | the label is `brand (generic)` of the first row when both its names are present; otherwise it is `brand (generic)` of the medication table's entry for the id, and missing exactly when that table has none |
| StockQueries.StockForMed | backend/app/tools.py:476-543 | a falsy med id is `MISSING_PARAMETER`; otherwise stock is reported for that id |
| StockQueries.StockForMedQuery | backend/app/tools.py:476-543 | the stock reported is the rows the catalog returns for the med id condition, then the store-id list, then `in_stock_only`, joined with AND, the med id bound first; the name comes from the first row or the medication table |
| StockQueries.QueryStockMultipleStores | backend/app/tools.py:454-543 | neither identifier is `MISSING_PARAMETER`; a med id is used directly; `MEDICATION_NOT_FOUND` exactly when a name alone is given and not found; a name that is found runs the same query as its med id |
| StockQueries.MultipleStoresGuardRunsNoQuery | backend/app/tools.py:476-478 | without identifiers the guard answers without consulting the database |
| ToolRunner.SignaturesMatchRegistry | backend/app/tools.py:736-895 | the Python signatures and the registered specs name the same tools with the same parameters and required lists |
| ToolRunner.Missing | backend/app/tools.py:926-929 | the missing arguments are exactly the required parameters not passed |
| ToolRunner.MissingMessageRecognised | backend/app/tools.py:930-936 | every missing-argument `TypeError` text contains both "missing" and "required" |
| ToolRunner.TwoNamesJoinedWithAnd | backend/app/tools.py:926-931 | two missing arguments are listed as `'a' and 'b'` in the `TypeError` text |
| ToolRunner.ClassifyTypeError | backend/app/tools.py:930-938 | a `TypeError` becomes `MISSING_REQUIRED_ARGUMENT` exactly when its text mentions both words; otherwise it propagates |
| ToolRunner.IncrementStat | backend/app/tools.py:697-712 | the upsert adds one to the tool's counter, starting at zero, and leaves other counters alone |
| ToolRunner.Dispatch | backend/app/tools.py:899-926 | no tool touches the usage counters; every tool other than refill leaves the store as it was and its result depends only on the catalogue, the current prescriptions, its name and its arguments |
| ToolRunner.Call | backend/app/tools.py:925-938 | binding the arguments and running the tool never changes the usage counters, and only the refill tool changes the store |
| ToolRunner.RunTool | backend/app/tools.py:897-938 | an unknown tool is `UNKNOWN_TOOL` with nothing recorded; a known tool's counter is incremented unless the write fails |
| ToolRunner.StatsDoNotAffectResults | backend/app/tools.py:917-923 | whether the statistics write fails does not change the result or the prescriptions and refill requests |
| ToolRunner.CallIgnoresStats | backend/app/tools.py:926 | the tool call reads no statistics |
| ToolRunner.RefillReadsNoStats | backend/app/tools.py:669-694 | the refill result does not depend on the statistics |
| ToolRunner.OnlyRefillWrites | backend/app/tools.py:897-938 | every tool other than refill leaves prescriptions and refill requests unchanged |
| ToolRunner.MissingArgumentsReported | backend/app/tools.py:926-936 | a known tool called without a required argument returns `MISSING_REQUIRED_ARGUMENT` with the interpreter's message |
| ToolRunner.CheckStockWithoutArguments | backend/app/tools.py:926-936 | a stock check without arguments reports both `med_id` and `store_id`, in declaration order |
| Agents.SelectProvider | backend/app/agents/__init__.py:21-31 | Gemini exactly when `MODEL_PROVIDER` spells "gemini" in any case; otherwise, and when unset, OpenAI |
| Agents.ParseInt | backend/app/agents/__init__.py:22 | `int()` accepts exactly an optionally signed run of digits inside whitespace, and otherwise raises with the literal |
| Agents.ParseIntOfString | backend/app/agents/__init__.py:22 | a round budget written in decimal is read back exactly |
| Agents.MaxToolRounds | backend/app/agents/__init__.py:22 | the budget is ten when unset, and otherwise the parsed setting |
| Agents.Dispatch | backend/app/agents/__init__.py:27-31 | whichever adapter is selected, the run ends with exactly one terminal event, last, and every result follows its call |
| Agents.StreamAgent | backend/app/agents/__init__.py:10-31 | an unreadable budget raises; otherwise the selected adapter's run passes through unchanged, with exactly one terminal event last and every result after its call |
| Agents.DefaultsToOpenAI | backend/app/agents/__init__.py:21-22 | with neither variable set, the conversation goes to OpenAI with ten rounds |
| Agents.ProviderCaseInsensitive | backend/app/agents/__init__.py:21 | settings equal up to letter case select the same provider |

## Left out

- Logging, the SDK clients, the system-prompt file and database connections are not modelled.
  The provider stream is a parameter of each adapter, and SQL runs through the `Catalog`
  oracles on the exact text and parameters built.
- The module-level globals the adapters read are fields of `Agents.Backends`: the two
  provider streams, `json.loads`, the argument serialiser, the system instructions, the tool
  executor and the declared OpenAI tools. `Agents.Wire` fills the executor with `run_tool` and
  the tools with `OPENAI_TOOLS`. The environment variables are the `Settings` parameter.
- `_fuzzy_medication_candidates` is an oracle of the catalog. Trigram similarity and its
  threshold are not modelled.
- Database errors are not modelled. The write of `_increment_tool_stat` failing is the
  `statsFail` flag of the tool context. That flag holds for the whole invocation, so either
  every statistics write fails or none does. A failed refill write is not modelled at all. The
  two refill statements are treated as one atomic step.
- Clocks are the `Clock` parameter: the current date, the formatted timestamp and the ISO time.
  The truncation to milliseconds is assumed done by the caller.
- Tools.RequestPrescriptionRefill: a prescription id that is not a string is treated as not
  found. `expires_at` is compared as text, which matches the date comparison only for ISO
  dates.
- StockQueries.StoreIdValues: a mapping passed as `store_ids` raises instead of binding its
  keys.
- ToolRunner.Call: the unexpected-keyword message omits the keyword's name, because the order of
  the argument keys, which decides the keyword Python names, is not modelled. This changes the
  outcome when that keyword's name contains both "missing" and "required": the source then
  returns `MISSING_REQUIRED_ARGUMENT`, while the model re-raises and the stream ends with `error`.
- OpenAIAgent.ApplyDelta: a tool-call index is a natural number. A negative index, which the
  source would use to address a slot from the end or fail on with `IndexError` (ending the
  round with `error`), is not modelled.
- StockQueries.QueryMedicationsWithStock: the tool runs the corrected statement, with the store
  ids bound first. The source binds the medication parameters first (see Findings), so when both
  store ids and text or `rx_required` filters are given, its rows differ from the model's.
  `StockStatementAsWritten` keeps the source's binding.
- Agents.ParseInt: underscores between digits, non-ASCII digits and the escaping of `repr` in
  the error text are not modelled.
- Agents.SelectProvider: `str.lower` is modelled on ASCII letters only. This is exact for the
  comparison with "gemini", since no other character lowers to one of its letters alone.
- OpenAIAgent.Stream: the conversation's messages must all carry a role and a string content.
  The source raises `KeyError` before the first round when a key is missing, and that is not
  modelled. A content that is present but JSON null is passed on to the provider by the source;
  the model has no null content, so that input is outside the model too.
- GeminiAgent.ConvertMessages: a content that is present but JSON null cannot be told apart from
  a missing one, because a message's content is an optional string. The source sends the null
  on as `{"text": None}`, while the model sends `""`. The source declares message contents as
  strings, so only the absent case is modelled.
- Tool descriptions in the registry are abridged to their first sentence. Parameter types are
  kept.
- `json.dumps` of tool results into the chat history is not modelled. The history keeps the
  result value.
- `get_tool_stats` is outside the modelled core.
- JSON numbers are integers. Floating-point arguments are not modelled.

## Findings

| source | as written | input that shows it | evidently intended | confidence | as-written member | corrected member |
|---|---|---|---|---|---|---|
| backend/app/tools.py:367-422 | parameters are collected as medication conditions, then store ids, then the limit, but the SQL text puts the store `IN (...)` placeholders in the JOIN (line 417) before the medication WHERE placeholders (line 418) | `query_medications_with_stock(search_term="ibu", store_ids=["S1"])`: the store filter receives `%ibu%` and `active_ingredients ILIKE` receives `S1` | store-id parameters come first, in placeholder order, so each value fills its own column | not executed | StockQueries.StockStatementAsWritten | StockQueries.StockStatement |
