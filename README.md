# dynamic_lang_graph, modelled in Dafny

This project models the core of a chat service built on LangGraph.

- **Orchestrator.** It asks a language model which registered *flow* should handle a chat request. It then builds the flow's initial state from the chat messages, runs the flow's graph and reports the newest message of the result.
- **Flows.** Two flows are modelled:
  - *general_qa*: analyse, answer, finalise.
  - *text_to_sql*: analyse the request, identify tables, validate them, identify columns, generate SQL, validate it (with a retry loop back to generation), finalise. Two fix paths skip ahead.
- **Services beside them.** The flow registry service, the in-memory conversation manager, the parsing of model replies, the query helpers, the schema metadata manager and the schema-document parser.

Modules, one file each:

| file | models |
|---|---|
| `wrappers.dfy`, `faults.dfy` | Option/Result, and the Python exceptions a step can raise |
| `json.dfy` | the values `json.loads` yields and the dict/list protocol the flows use on them (`[]`, `.get`, iteration, truthiness, `str`, `join`) |
| `text.dfy` | `strip`, `lower`/`upper`, `find`, `split`, `join` on strings |
| `oracle.dfy` | a flow's language model: a script of replies, one per `invoke` |
| `flow_base.dfy` | `app/flows/base.py`: FlowState, the message helpers, the `flow` decorator and FLOW_REGISTRY |
| `graph.dfy`, `engine.dfy` | a declared graph, and `BaseFlow.run`: an interpreter that runs steps, follows fixed and conditional edges, and stops at END or on an exception |
| `general_qa.dfy`, `general_qa_paths.dfy` | `app/flows/general_qa.py`: the graph and steps, and whole runs of the flow |
| `text_to_sql.dfy`, `text_to_sql_steps.dfy`, `text_to_sql_paths.dfy` | `app/flows/text_to_sql.py`: the graph, routers and steps as functions; the steps as methods on a FlowState; whole runs along each route and the retry loop |
| `sql_fence.dfy` | the two `re.sub` fence cleanups and the search for a fenced block |
| `orchestrator.dfy` | `app/services/orchestrator.py` |
| `flow_registry.dfy` | `app/services/flow_registry.py` |
| `conversation.dfy` | `app/services/conversation_manager.py` |
| `llm_api.dfy` | `app/models/llm_api.py` |
| `database_utils.dfy` | `app/utils/database_utils.py` |
| `metadata_manager.dfy` | `app/utils/metadata_manager.py` |
| `schema_document.dfy` | `app/core/database.py` |

What the program takes from outside becomes a parameter:

- **Language model replies.** They come from a script (`Oracle`). A call on an exhausted script stands for a call that raised.
- **`json.loads`.** It is the parameter `decode: string -> Option<Json>`, with None for a decode error.
- **`uuid.uuid4()` and `datetime.now()`.** They are arguments of the conversation methods.
- **LangGraph's recursion limit.** It is a step budget (`limit`) of a run.

Steps raise Python exceptions when a reply has the wrong shape (a missing key, a non-string in a `join`). These are `Exn` values. `run` catches them and returns its input state with `error` set.

Each step is modelled twice:

- a function on the state value, used by the lemmas about whole runs;
- a method that updates the FlowState object in place, proved to do exactly what the function says.

Where the code and its comments or documentation disagree, the model follows the code.
- `validate_flow_name` accepts a trailing newline.
- The manager's placeholder catalogue makes `get_concise_schema` raise.
- The table and SQL validation steps always set their approval flags to true.

Two defects make every run fail as written, and there the model runs the intended behaviour instead. The text-to-SQL steps subscript a FlowState object, and `execute_flow` passes `run` a plain dict. For each, the Findings section gives a member for the code as written and one for the intended behaviour.

## Model

| member | source | states |
|---|---|---|
| FlowBase.NewMessage | app/flows/base.py:82-90 | the message `add_message` makes has the given content and is a human message exactly when the role is "user", never a system message |
| FlowBase.AddMessage | app/flows/base.py:82-90 | the state object afterwards holds the old value with exactly one message appended at the end |
| FlowBase.LastUserMessage | app/flows/base.py:92-104 | None exactly when no message is human; otherwise the content of some human message (the newest) |
| FlowBase.LastUserMessageSkipsAi | app/flows/base.py:92-104 | appending a non-human message never changes the last user message |
| FlowBase.Store | app/flows/base.py:34-40 | storing a metadata entry changes only that key; messages, session, step and error stay |
| FlowBase.HistoryLines | app/flows/base.py:106-114 | at most one history line per message; a list of system messages gives none |
| FlowBase.HistoryLinesAppend | app/flows/base.py:106-114 | the history of a concatenation is the history of each part, in order |
| FlowBase.HistoryLinesOfDialogue | app/flows/base.py:106-114 | a dialogue of human and AI messages gives one "User: "/"Assistant: " line per message, in order |
| FlowBase.FlowState.constructor | app/flows/base.py:34-40 | a new FlowState has every field at its declared default |
| FlowBase.FlowTable.Register | app/flows/base.py:12-32 | a class not derived from BaseFlow raises ValueError and leaves the registry alone; otherwise its attributes are set and it is stored under the name, replacing an earlier entry, with key order kept |
| FlowBase.GetFlowByName | app/flows/base.py:116-120 | None exactly when the name is not registered; otherwise an instance of the registered class |
| FlowBase.GetAllFlows | app/flows/base.py:122-124 | one instance per registry key, in registry order |
| Graph.EndingNodesAreNodes | app/flows/text_to_sql.py:72-76 | in a well-formed graph every node with an edge to END is a declared node |
| Engine.Next | app/flows/base.py:72-80 | a node with no declared edge has no successor, and a conditional edge only ever leads to one of its decision table's targets |
| Engine.ExecPath | app/flows/base.py:72-80 | a run only appends to the nodes already run, a completed run ran at least one node, and no run takes more steps than its budget |
| Engine.ExecAlong | app/flows/base.py:72-80 | a run that keeps to a route, with budget for all of it, completes with the route's steps applied in order and runs exactly the route's nodes |
| Engine.ExecRoute | app/flows/base.py:72-80 | from the entry, a run keeping to a route that starts there runs exactly that route |
| Engine.RunResult | app/flows/base.py:72-80 | `run` returns the final state of a completed run, or else the input state with `error` set to the text the model gives the exception (see `Faults.Message` under "## Left out") |
| Engine.NoBudgetAborts | app/flows/base.py:72-80 | with no step budget, `run` reports the recursion limit and changes nothing else |
| Engine.Run | app/flows/base.py:72-80 | the imperative run: on success a new object holding the final state, the input untouched; on an exception the input object with `error` set; the model script loses exactly the replies the run used |
| Oracle.Call | app/flows/text_to_sql.py:101 | a model call consumes exactly the first reply of the script, and fails exactly when the script is used up |
| Oracle.Llm.Invoke | app/flows/general_qa.py:60 | the imperative call: returns the next reply and removes it from the script, or fails and leaves an empty script alone |
| GeneralQa.QaGraph | app/flows/general_qa.py:19-37 | the graph's entry is analyze_question and its nodes are the three steps |
| GeneralQa.QaGraphShape | app/flows/general_qa.py:19-37 | the graph is well formed, every edge is fixed, analysis leads to generation, generation to finalisation, and only finalisation ends the run |
| GeneralQa.FinalizeAppendsAnswer | app/flows/general_qa.py:91-99 | finalisation appends exactly one assistant message holding the generated response ("" when there is none) and keeps earlier messages and the metadata |
| GeneralQa.GenerateStoresReply | app/flows/general_qa.py:68-89 | the response step stores the reply it received and consumes it, whatever the analysis was |
| GeneralQa.PathAnswersWithSecondReply | app/flows/general_qa.py:25-35 | the three steps in sequence answer with the second reply of the model |
| GeneralQaPaths.QaEdges | app/flows/general_qa.py:33-35 | the interpreter follows the three fixed edges: analysis to generation, generation to finalisation, finalisation to END |
| GeneralQaPaths.QaRun | app/flows/general_qa.py:19-99 | with two replies and budget for three steps, `run` completes along analyze_question, generate_response, finalize_response, uses two replies, and appends exactly one assistant message holding the second reply; session and `error` stay |
| GeneralQaPaths.QaRunNeedsTwoReplies | app/flows/general_qa.py:19-99 | with fewer than two replies and the same budget, the run aborts and `run` returns its input with the failed model call as `error` |
| GeneralQa.StepRecordsNode | app/flows/general_qa.py:64 | each step records its own node name as the current step |
| GeneralQa.AnalyzeQuestionStep | app/flows/general_qa.py:39-66 | the method does what the analysis step function does to the state and the script |
| GeneralQa.GenerateResponseStep | app/flows/general_qa.py:68-89 | the method does what the response step function does; the analysis shown to the model is the stored one, "" when absent |
| GeneralQa.FinalizeResponseStep | app/flows/general_qa.py:91-99 | the state object afterwards holds the finalised value |
| GeneralQa.RunStep | app/flows/general_qa.py:25-27 | dispatching a node name runs that node's step method; an unknown name raises |
| TextToSql.FlowGraph | app/flows/text_to_sql.py:23-78 | the graph's entry is analyze_request and its nodes are the eight steps |
| TextToSql.FlowGraphWellFormed | app/flows/text_to_sql.py:23-78 | every declared edge starts at a node and leads to a node or END |
| TextToSql.FlowGraphEnds | app/flows/text_to_sql.py:72-76 | only finalize_response leads to END |
| TextToSql.AnalysisRouteIsKey | app/flows/text_to_sql.py:150-158 | the analysis route is a key of its decision table exactly when the stored operation type is one of the four keys |
| TextToSql.RouteAfterSqlValidation | app/flows/text_to_sql.py:374-382 | a result is always a key of the decision table, and a falsy approval flag routes to "rejected" |
| TextToSql.FixQueryType | app/flows/text_to_sql.py:104-110 | a fix type is recorded exactly for "fix_query": "direct" when the message shows an SQL keyword, "followup" when it does not |
| TextToSql.AnalyzeThenRoute | app/flows/text_to_sql.py:80-114 | in the corrected flow, whose steps use the state's fields: after analysis the route is the normalised reply, except that "fix_query" becomes "fix_query_followup" exactly when the user's message shows no SQL keyword |
| TextToSql.AnalyzeRequestAsWritten | app/flows/text_to_sql.py:100-113 | analysis as written always raises: the failed model call when the script is used up, otherwise TypeError at the first `state["metadata"]` on the FlowState object |
| TextToSql.Decoded | app/flows/text_to_sql.py:183-193 | the decoded value under the key, or the fallback when the reply does not decode or lacks the key |
| TextToSql.IdentifyTablesFallback | app/flows/text_to_sql.py:191-193 | an unparseable table reply leaves exactly one table, "users", reasoned "Default table" |
| TextToSql.ReasonLines | app/flows/text_to_sql.py:198-229 | one "- name: reasoning" line per table, in order |
| TextToSql.TableSelection | app/flows/text_to_sql.py:198-229 | building the selection succeeds exactly when every table has a name and a reasoning and the names are strings |
| TextToSql.ValidateTables | app/flows/text_to_sql.py:198-229 | table validation succeeds exactly when the selection can be built; it then records approval true, keeps the messages and records its step |
| TextToSql.TableGateAlwaysApproves | app/flows/text_to_sql.py:231-234 | a successful table validation always routes on to column identification |
| TextToSql.ColumnsOffered | app/flows/text_to_sql.py:242-245 | the offered columns hold exactly the catalogue tables whose name is among the identified names, each with its catalogue columns |
| TextToSql.OfferedColumns | app/flows/text_to_sql.py:236-277 | the offer raises exactly when some identified table has no name |
| TextToSql.IdentifyColumnsFallback | app/flows/text_to_sql.py:272-274 | an unparseable column reply leaves an empty column list |
| TextToSql.Verdict | app/flows/text_to_sql.py:352-369 | a reply that is not a JSON object gives the valid verdict; an object gives its `is_valid`, false when missing |
| TextToSql.SqlGate | app/flows/text_to_sql.py:325-382 | after SQL validation the route is "approved" exactly when the reply is not an object or its `is_valid` (default false) is truthy |
| TextToSql.LatestSelect | app/flows/text_to_sql.py:120-131 | the index of the newest message mentioning "select" in any case, with no later message mentioning it, or -1 |
| TextToSql.PreviousSql | app/flows/text_to_sql.py:118-131 | a truthy stored query is the previous SQL shown to the model |
| TextToSql.TablesSection | app/flows/text_to_sql.py:399-403 | a falsy table list gives no section; otherwise the title, one line per table and a blank line |
| TextToSql.ColumnsSection | app/flows/text_to_sql.py:405-408 | a falsy column list gives no section; otherwise the title and one line per column entry |
| TextToSql.FinalizeAppendsResponse | app/flows/text_to_sql.py:384-416 | a successful finalisation appends exactly one assistant message that opens with the header and the query inside a sql fence, and keeps earlier messages |
| TextToSql.ResponseOpens | app/flows/text_to_sql.py:391-414 | whatever sections follow, the response text begins with the joined opening |
| TextToSql.StepRecordsNode | app/flows/text_to_sql.py:29-36 | every step records its own node name as the current step |
| TextToSqlSteps.AnalyzeRequestStep | app/flows/text_to_sql.py:80-114 | in the corrected flow, the method does what the analysis step function does to the state and the script |
| TextToSqlSteps.IdentifyTablesStep | app/flows/text_to_sql.py:160-196 | the method does what the table step function does |
| TextToSqlSteps.ValidateTablesStep | app/flows/text_to_sql.py:198-229 | the method does what table validation does, raising exactly when it raises |
| TextToSqlSteps.OfferColumns | app/flows/text_to_sql.py:242-245 | the loop over the catalogue yields exactly the offered columns |
| TextToSqlSteps.IdentifyColumnsStep | app/flows/text_to_sql.py:236-277 | the method does what the column step function does; the offer shown to the model is the offered columns |
| TextToSqlSteps.AppendLines | app/flows/text_to_sql.py:287-293 | the loop appends one rendered line per item, in order, or stops with the first exception |
| TextToSqlSteps.BuildGenerationContext | app/flows/text_to_sql.py:287-293 | the two `+=` loops build exactly the table and column context, or raise as the context does |
| TextToSqlSteps.GenerateSqlStep | app/flows/text_to_sql.py:279-323 | the method does what the generation step function does |
| TextToSqlSteps.ValidateSqlStep | app/flows/text_to_sql.py:325-372 | the method does what the SQL validation step function does |
| TextToSqlSteps.FindPreviousSql | app/flows/text_to_sql.py:120-131 | the backwards search returns the SQL of the newest message mentioning "select", or None |
| TextToSqlSteps.FindPrevious | app/flows/text_to_sql.py:118-131 | the previous SQL shown to the model is the stored query when truthy, else the one found in the messages |
| TextToSqlSteps.FixQueryFollowupStep | app/flows/text_to_sql.py:116-148 | the method does what the follow-up fix step function does and shows the model the previous SQL |
| TextToSqlSteps.BuildSection | app/flows/text_to_sql.py:399-408 | a section loop gives nothing for a falsy value, else the title, the item lines and the closing lines, or raises with the first failing item |
| TextToSqlSteps.BuildTablesSection | app/flows/text_to_sql.py:399-403 | the loop builds exactly the "Tables used" section |
| TextToSqlSteps.BuildColumnsSection | app/flows/text_to_sql.py:405-408 | the loop builds exactly the "Columns selected" section |
| TextToSqlSteps.FinalizeResponseStep | app/flows/text_to_sql.py:384-416 | the method does what finalisation does, raising exactly when it raises |
| TextToSqlSteps.RunStep | app/flows/text_to_sql.py:29-36 | dispatching a node name runs that node's step method; an unknown name raises |
| TextToSqlPaths.DefaultTablesUsable | app/flows/text_to_sql.py:191-193 | the fallback table list passes validation and renders in both prompts and the response |
| TextToSqlPaths.TableListUsable | app/flows/text_to_sql.py:198-229 | a list of tables with string names and reasonings passes table validation, renders in both prompts and names the offered columns |
| TextToSqlPaths.AnalysisTargets | app/flows/text_to_sql.py:42-51 | each analysis key leads to its node: new_query to identify_tables, edit_query to generate_sql, fix_query to validate_sql, fix_query_followup to fix_query_followup |
| TextToSqlPaths.AnalysisKeeps | app/flows/text_to_sql.py:80-114 | in the corrected flow: analysis changes only the two analysis entries of the metadata and no message |
| TextToSqlPaths.FollowupRouted | app/flows/text_to_sql.py:150-158 | in the corrected flow: both replies asking for a follow-up fix route to it when the message has no SQL keyword |
| TextToSqlPaths.GenerateKeeps | app/flows/text_to_sql.py:279-323 | generation stores the cleaned reply and keeps the messages and the recorded tables and columns |
| TextToSqlPaths.ValidateKeeps | app/flows/text_to_sql.py:325-372 | SQL validation keeps the messages, the query and the recorded tables and columns |
| TextToSqlPaths.FollowupKeeps | app/flows/text_to_sql.py:116-148 | the follow-up fix stores the cleaned reply and keeps the messages and the recorded tables and columns |
| TextToSqlPaths.FinalizeAnswers | app/flows/text_to_sql.py:384-416 | finalisation answers with the stored query when the sections can be built and the query is a string |
| TextToSqlPaths.NewQueryAlong | app/flows/text_to_sql.py:39-76 | in the corrected flow: a new query keeps to analysis, table identification and validation, column identification, generation, SQL validation and finalisation, answering with the cleaned fourth reply |
| TextToSqlPaths.EditQueryAlong | app/flows/text_to_sql.py:42-51 | in the corrected flow: an edit goes straight to generation from the recorded tables and columns and answers with the cleaned second reply once the third approves |
| TextToSqlPaths.DirectFixAlong | app/flows/text_to_sql.py:42-51 | in the corrected flow: a direct fix goes straight to validation of the stored query and answers with that query once the second reply approves |
| TextToSqlPaths.FollowupFixAlong | app/flows/text_to_sql.py:116-148 | in the corrected flow: a follow-up fix answers with the cleaned second reply, which nothing validates |
| TextToSqlPaths.NewQueryRun | app/flows/text_to_sql.py:39-76 | in the corrected flow: with budget for seven steps, `run` on a new query completes and appends the answer holding the cleaned fourth reply |
| TextToSqlPaths.EditQueryRun | app/flows/text_to_sql.py:42-51 | in the corrected flow: `run` on an edit completes and answers with the cleaned second reply |
| TextToSqlPaths.DirectFixRun | app/flows/text_to_sql.py:104-110 | in the corrected flow: `run` on a direct fix completes and answers with the stored query |
| TextToSqlPaths.FollowupFixRun | app/flows/text_to_sql.py:104-110 | in the corrected flow: `run` on a follow-up fix completes and answers with the cleaned second reply |
| TextToSqlPaths.RejectRuns | app/flows/text_to_sql.py:62-69 | a validator reply that rejects sends the run back to generation |
| TextToSqlPaths.RejectedNeverCompletes | app/flows/text_to_sql.py:53-69 | if the validator rejects every query, a run from generation never completes; it ends when the step budget or the replies run out |
| TextToSqlPaths.LoopNeverCompletes | app/flows/text_to_sql.py:62-69 | the same, by induction on the budget, for any machine with the generate/validate loop |
| TextToSqlPaths.AsWrittenRunFails | app/flows/text_to_sql.py:80-114 | as written no run completes: with any budget and script, `run` returns its input with `error` set, no message added and the metadata and session untouched; with a step and a reply to spend, the error is the TypeError of subscripting the FlowState |
| TextToSqlPaths.AsWrittenNeverAnswers | app/flows/base.py:72-80 | on every new-query script the corrected flow answers with one new message, the flow as written adds none and reports TypeError |
| SqlFence.CleanSqlWithoutFences | app/flows/text_to_sql.py:314-318 | a reply without any "```" comes through the fence cleanup unchanged |
| SqlFence.CleanSqlFenced | app/flows/text_to_sql.py:314-318 | a fenced query "```sql", blank, backtick-free body, blank, "```" cleans to the body trimmed |
| SqlFence.CleanSqlNotIdempotent | app/flows/text_to_sql.py:314-318 | the cleanup is not idempotent: removing a spaced fence can join backticks into a new fence |
| SqlFence.Fenced | app/flows/text_to_sql.py:123-128 | the body of the first block with the given opener (any letter case) up to the next fence, or None when there is none |
| SqlFence.SqlOfFencedMessage | app/flows/text_to_sql.py:123-128 | a message with a sql block yields that block's body, stripped |
| Orchestrator.FlowsContextGrows | app/services/orchestrator.py:24-31 | one more flow adds a blank line and its entry at the end of the flows context |
| Orchestrator.HistoryTextAppend | app/services/orchestrator.py:36-40 | the history of two runs of messages is the history of the first followed by that of the second |
| Orchestrator.BuildHistory | app/services/orchestrator.py:36-40 | the loop builds exactly the history text, one "User"/"Assistant" line per message |
| Orchestrator.SelectFlow | app/services/orchestrator.py:73-80 | the selection is a flow name or "general_qa"; a normalised reply naming a flow is taken as is |
| Orchestrator.SelectionIsRegistered | app/services/orchestrator.py:73-80 | when "general_qa" is registered, the selection is always a registered flow |
| Orchestrator.ConvertRoundTrip | app/services/orchestrator.py:89-100 | the conversion is one for one and each converted message gives back the chat message it came from |
| Orchestrator.ConvertMessages | app/services/orchestrator.py:89-100 | the loop converts exactly the messages, in order |
| Orchestrator.SessionOr | app/services/orchestrator.py:105 | a non-empty given id is kept; a missing or empty one becomes "default" |
| Orchestrator.Execution | app/services/orchestrator.py:82-127 | in the corrected `execute_flow`, which runs the flow on a FlowState: execution raises exactly for an unregistered flow name and otherwise reports that name |
| Orchestrator.ExecutionAsWrittenRaises | app/services/orchestrator.py:103-112 | for every registered flow the corrected execution reports the run, while as written `run` on the plain dict raises AttributeError out of `execute_flow` |
| Orchestrator.CompletedRunReported | app/services/orchestrator.py:112-127 | a completed run is reported with its final state's newest message, session and metadata |
| Orchestrator.NewQueryAnswered | app/services/orchestrator.py:82-127 | in the corrected orchestrator and flow: a new-query request to the text-to-SQL flow with enough budget is answered with a response opening with the generated query, fenced |
| Orchestrator.LastUserTextConverted | app/services/orchestrator.py:138-143 | the newest USER chat message is the newest human message of the converted list |
| Orchestrator.FindUserMessage | app/services/orchestrator.py:138-143 | the backwards search returns the content of the newest USER message, or "" |
| Orchestrator.OrchestratorService.constructor | app/services/orchestrator.py:12-22 | the service holds one instance per registered flow, in registry order |
| Orchestrator.OrchestratorService.AvailableFlowsContext | app/services/orchestrator.py:24-31 | the loop builds exactly the flows context |
| Orchestrator.OrchestratorService.DetermineAppropriateFlow | app/services/orchestrator.py:33-80 | one model call; a failed call raises; otherwise the normalised reply when it names a flow, "general_qa" when not |
| Orchestrator.OrchestratorService.ExecuteFlow | app/services/orchestrator.py:82-127 | the method's result is the execution of the named flow on the initial state built from the messages |
| Orchestrator.OrchestratorService.ProcessChatRequest | app/services/orchestrator.py:135-161 | without a user message nothing runs and the error report is returned; a given flow name runs without a model call; otherwise the model picks the flow |
| FlowRegistry.RegisterFlow | app/services/flow_registry.py:11-24 | a registration is accepted exactly when its name is not registered |
| FlowRegistry.GetAllFlows | app/services/flow_registry.py:26-42 | the loop collects one entry per registry key, in registry order |
| FlowRegistry.GetFlowByName | app/services/flow_registry.py:44-59 | None exactly for an unregistered name, otherwise the information under that name |
| FlowRegistry.GetFlowsByCategory | app/services/flow_registry.py:73-77 | the category is ignored: the result is the full listing |
| FlowRegistry.QueriesAgree | app/services/flow_registry.py:44-71 | the listing, the name list, the existence check and the lookup agree entry by entry |
| FlowRegistry.CountIsListed | app/services/flow_registry.py:69-71 | the flow count equals the number of listed names and of listed entries |
| FlowRegistry.ValidateFlowNameMeaning | app/services/flow_registry.py:79-84 | the pattern accepts exactly the proper names and the proper names followed by one newline |
| FlowRegistry.TrailingNewlineAccepted | app/services/flow_registry.py:83-84 | "qa\n" passes the check as written but is not a proper flow name |
| FlowRegistry.IsFlowNameSound | app/services/flow_registry.py:82-84 | a proper flow name holds no newline, and the check as written accepts every proper name |
| FlowRegistry.StatisticsCounts | app/services/flow_registry.py:86-99 | the total is the number of names, "other" is the total less the names matching a keyword, and the three counts together are at least the total |
| FlowRegistry.CategoriesOverlap | app/services/flow_registry.py:94-98 | for every list of names, the three category counts add up to the total plus the number of names matching both keywords, each counted twice |
| FlowRegistry.SqlQaCountedTwice | app/services/flow_registry.py:94-98 | "sql_qa" matches both keywords |
| Conversations.PyTailIsSuffix | app/services/conversation_manager.py:69-71 | the kept tail is a suffix of the messages: the newest ones, in order |
| Conversations.ContextSuffixSpec | app/services/conversation_manager.py:79-95 | the budgeted context is the longest suffix whose token estimate fits the budget: the next older message would not fit |
| Conversations.RoundTrip | app/services/conversation_manager.py:97-120 | storing and reading back keeps ids, session, messages, instants and bound; only metadata None becomes {} |
| Conversations.RoundTripTwice | app/services/conversation_manager.py:22-41 | a second round trip changes nothing |
| Conversations.Conversation.AddMessage | app/services/conversation_manager.py:54-73 | the new message goes last and the update time is now; over the bound only the newest `max_messages` are kept, with the slice's reading of 0 and negatives |
| Conversations.Conversation.RecentMessages | app/services/conversation_manager.py:75-77 | no messages give none; a count of 0 or at least the length gives all; otherwise the newest `count` |
| Conversations.Conversation.MessagesForContext | app/services/conversation_manager.py:79-95 | no budget (None or 0) gives all messages; otherwise the loop yields exactly the budgeted suffix |
| Conversations.StaleIds | app/services/conversation_manager.py:224-233 | the first pass collects exactly the conversations last updated before the cutoff |
| Conversations.ConversationManager.CreateConversation | app/services/conversation_manager.py:130-145 | a fresh empty conversation under the new id with bound 50; the session now maps to it and everything else is kept |
| Conversations.ConversationManager.GetOrCreateConversation | app/services/conversation_manager.py:147-152 | a known session gives its id and nothing changes; an unknown one creates a conversation |
| Conversations.ConversationManager.AddMessage | app/services/conversation_manager.py:154-159 | for a known session, the mapped conversation's messages become the old ones plus the new message, trimmed to `max_messages` as `Conversation.add_message` trims, and the table and mapping stay; a mapping to a missing conversation raises KeyError and changes nothing; a new session gets a fresh conversation holding just the message, mapped from the session; every other conversation keeps its messages and last update |
| Conversations.ConversationManager.GetConversation | app/services/conversation_manager.py:161-167 | a conversation exactly when the session is mapped and the table holds the id it maps to |
| Conversations.ConversationManager.ConversationMessages | app/services/conversation_manager.py:169-177 | none for an unknown session; all messages without a bound; otherwise `get_recent_messages(bound)`, which for a positive bound is the newest min(bound, length) messages in order |
| Conversations.ConversationManager.ContextForLlm | app/services/conversation_manager.py:179-195 | role and content of each context message, in order; none for an unknown session |
| Conversations.ConversationManager.ConversationSummary | app/services/conversation_manager.py:197-210 | a summary exactly for a known session: its conversation id, session id, message count, creation and update times and metadata |
| Conversations.ConversationManager.ClearConversation | app/services/conversation_manager.py:212-222 | true exactly for a mapped session; then the mapping and its conversation are removed, and nothing else |
| Conversations.ConversationManager.CleanupOldConversations | app/services/conversation_manager.py:224-239 | exactly the conversations updated before the cutoff are removed, with the mappings of their sessions; their number is returned |
| Conversations.ConversationManager.ExportConversation | app/services/conversation_manager.py:241-247 | a dictionary exactly for a known session, which reads back as the conversation with its metadata settled |
| Conversations.ConversationManager.ImportConversation | app/services/conversation_manager.py:249-254 | the conversation read from the data is stored under its id and its session maps to it |
| LlmApi.KeyValueLine | app/models/llm_api.py:53-60 | a line gives a pair only with a non-empty key and a non-empty value |
| LlmApi.KeyValueOfMeaning | app/models/llm_api.py:47-62 | the fallback keeps a key exactly when some line gives it, with the value of the last such line |
| LlmApi.KeyValuePairs | app/models/llm_api.py:47-62 | the loop builds exactly the key:value dictionary |
| LlmApi.ParseJsonFromResponse | app/models/llm_api.py:9-67 | the method returns what the staged parse gives: {} for empty text, then a json block, then the brace span, then key:value pairs |
| LlmApi.FencedJsonFirst | app/models/llm_api.py:25-33 | a json block whose body decodes wins over every later stage |
| LlmApi.PlainTextIsKeyValues | app/models/llm_api.py:47-62 | text with no json block and no braces is read line by line |
| LlmApi.FallbackDictionary | app/models/llm_api.py:35-62 | text that fails both decoding stages is read line by line |
| LlmApi.KeptMeaning | app/models/llm_api.py:95-98 | a text is kept exactly when it is the image of some line and is accepted |
| LlmApi.CollectKeywordLines | app/models/llm_api.py:92-98 | the loop collects exactly the stripped lines whose upper-case form holds a statement keyword |
| LlmApi.ExtractSqlFromResponse | app/models/llm_api.py:69-103 | the method returns the SQL of the "Message" entry: its stripped sql block, else its keyword lines joined by spaces, else the message stripped |
| LlmApi.FencedSqlFirst | app/models/llm_api.py:83-88 | a message with a sql block (any letter case) gives the block's body, stripped |
| LlmApi.NoKeywordsGivesMessage | app/models/llm_api.py:100-103 | without a block and without keyword lines the message comes back stripped |
| LlmApi.ErrorSearchFinds | app/models/llm_api.py:136-142 | an indicator present in the message is always found in some "."-separated sentence |
| LlmApi.ExtractErrorMeaning | app/models/llm_api.py:121-144 | an error is reported exactly when the message holds an indicator; it is the stripped first sentence holding the first such indicator in list order |
| DatabaseUtils.ValidateSqlSyntax | app/utils/database_utils.py:93-126 | invalid exactly when there is no statement keyword or the counts of "(" and ")" differ, with those errors in order; a warning exactly when no final ";" |
| DatabaseUtils.SemicolonOnlyWarns | app/utils/database_utils.py:122-124 | adding a final ";" never changes the errors or the verdict |
| DatabaseUtils.CountsNotNesting | app/utils/database_utils.py:117-120 | only the counts of parentheses are compared: appending ")(" to any query leaves the balance check as it was, and "SELECT )(" passes |
| DatabaseUtils.Head | app/utils/database_utils.py:148-149 | `head(n)` keeps the first n rows, or all but the last -n for negative n |
| DatabaseUtils.FormatQueryResults | app/utils/database_utils.py:128-164 | an empty table gives no data; otherwise at most `max_rows` records of the first rows, the full row count and the columns |
| DatabaseUtils.SmallTableWhole | app/utils/database_utils.py:151-153 | a table of at most `max_rows` rows is returned whole |
| MetadataManager.PutEntry | app/utils/metadata_manager.py:24 | storing a key binds it and leaves every other key alone |
| MetadataManager.GetTableNames | app/utils/metadata_manager.py:54-56 | one name per table, in order, "" for a nameless table |
| MetadataManager.FirstNamed | app/utils/metadata_manager.py:60-62 | the index of the first table with that name, with no earlier match, or None when no table has it |
| MetadataManager.GetTableColumns | app/utils/metadata_manager.py:58-63 | the columns of the first table with that name, or [] when none has it |
| MetadataManager.GetTableRelationships | app/utils/metadata_manager.py:69-73 | always the empty list |
| MetadataManager.ExistsMeansFound | app/utils/metadata_manager.py:65-67 | for a non-empty name, existence is finding it; "" exists as soon as some table has no name |
| MetadataManager.CatalogueTables | app/core/database.py:7-18 | the manager's catalogue has the tables "users" and "orders", in that order, and both exist |
| MetadataManager.GetConciseSchema | app/utils/metadata_manager.py:15-26 | the loop builds exactly the concise schema of the tables, or raises as it does |
| MetadataManager.ConciseMeaning | app/utils/metadata_manager.py:20-24 | a built concise schema has one entry per table name holding the column names of the last table with that name |
| MetadataManager.CatalogueConciseRaises | app/utils/metadata_manager.py:23 | on the catalogue the manager is built with, the concise schema raises AttributeError |
| MetadataManager.CatalogueConciseNamed | app/utils/metadata_manager.py:20-24 | with plain strings taken as names, the catalogue's concise schema lists both tables |
| MetadataManager.GetRelevantSchemaText | app/utils/metadata_manager.py:28-52 | "" for no names; otherwise the loops build exactly the relevant schema, or raise as it does |
| MetadataManager.RelevantMeaning | app/utils/metadata_manager.py:33-50 | a built relevant schema holds exactly the requested names some table has, each with the details of the first table of that name |
| MetadataManager.CatalogueRelevantRaises | app/utils/metadata_manager.py:38-44 | asking the catalogue for "users" raises AttributeError |
| SchemaDocument.TableInfo | app/core/database.py:2-19 | the catalogue has two tables, "users" then "orders", each with "id" and "created_at" columns |
| SchemaDocument.RelationshipsOfCount | app/core/database.py:35-38 | a relationship is filed under a name as often as the name occurs in its models |
| SchemaDocument.RelationshipsOfUnrelated | app/core/database.py:35-38 | a name no relationship mentions has nothing filed under it |
| SchemaDocument.ChunkLines | app/core/database.py:46-66 | a chunk is the header, one line per column, the primary key line when there is a key, then the relationship lines |
| SchemaDocument.ChunkStartsWithHeader | app/core/database.py:47 | every chunk begins with the table line and the catalog line |
| SchemaDocument.BuildRelationshipLookup | app/core/database.py:35-38 | the lookup loop files under each name exactly the relationships naming it, in document order |
| SchemaDocument.FileRelationship | app/core/database.py:37-38 | one pass appends the relationship under each model it names, once per occurrence |
| SchemaDocument.BuildChunk | app/core/database.py:40-67 | the loop body builds exactly the model's chunk |
| SchemaDocument.ParseSchemaJson | app/core/database.py:23-68 | one chunk per model, in model order, each the model's chunk |
| Json.Iterate | app/flows/text_to_sql.py:288 | iterating a list gives its items; iterating null, a boolean or a number raises, and nothing else does |
| Json.JoinJson | app/flows/text_to_sql.py:202 | a list of strings always joins |
| Json.Pluck | app/flows/text_to_sql.py:201-202 | the comprehension yields one value per item, or raises with the first item that cannot be subscripted |
| Json.MapItems | app/flows/text_to_sql.py:287-293 | one rendered line per item, in order, or the first item's exception |
| Json.MapItemsPrefixErr | app/flows/text_to_sql.py:287-293 | once a prefix raises, the whole list raises with the same exception |
| Text.JoinSplit | app/models/llm_api.py:50 | joining the split parts with the separator gives back the text |

## Left out

- Prompts and their text are not modelled: every model call is a reply taken from a script. So are the HTTP layer, configuration, `contextual_llm_service.py` and `custom_llm_connector.py`.
- The LangGraph library is not part of this model. `Engine` interprets the declared graph in its place, and a step budget stands for its recursion limit.
- `get_description` texts of the two flows, and `BaseFlow.get_available_flows` and `OrchestratorService.get_flow_info`. The last two list the same registry entries as `FlowRegistry.GetAllFlows`.
- `validate_json_response` is not modelled. It always returns True, because `parse_json_from_response` never raises.
- `generate_query_results`: it is database I/O.
- The rendering of `json.dumps(..., indent=2)`: the metadata summaries are the ordered dictionaries it would render.
- `isoformat`/`fromisoformat` are taken to be exact inverses. Instants are whole seconds.
- Case mapping is ASCII only. The `\s` class and `str.isspace` are the fixed whitespace set in `text.dfy`, without Unicode categories.
- A "Message" value that is not a string: a response dictionary is modelled by its string entries.
- Execution: `execute_flow` hands `run` a plain dict. As written, `state.dict()` raises AttributeError, the handler's `state.error = str(e)` raises AttributeError again, and that escapes `run`; the report after it subscripts `result_state[...]`, which on the FlowState `run` returns would raise TypeError. The model runs the flow on the FlowState that dict describes and reads the result's fields, as evidently intended (see Findings).
- ProcessChatRequest: a request with a user message reaches `execute_flow`, so as written it raises as above; the model states the corrected behaviour.
- Flow instantiation has no side effects here, and the orchestrator's list of flow instances is taken once at construction, as the source does.
- `execute_flow` reports the newest message of any kind (every LangChain message has `content`), not the newest assistant message.
- The text-to-SQL steps subscript their state (`state["metadata"]`, `state["current_step"]`, 38 uses), while the graph hands them a FlowState object, which cannot be subscripted; general_qa.py uses fields. The model runs the steps as reading and writing the fields (see Findings). Every member below about the text-to-SQL flow describes that corrected flow.
- AnalyzeThenRoute: states the routing after a successful analysis; as written, analysis raises TypeError at text_to_sql.py:106 on every input (TextToSql.AnalyzeRequestAsWritten).
- AnalyzeRequestStep: the method writes the FlowState's fields; as written the step raises TypeError after the model call.
- AnalysisKeeps: states what a successful analysis keeps; as written analysis always raises, so nothing is kept beyond `run` setting `error` (TextToSqlPaths.AsWrittenRunFails).
- FollowupRouted: states the routing of the corrected flow; as written no run gets past analysis.
- NewQueryAlong: the route completes only in the corrected flow; as written every run aborts at analyze_request.
- EditQueryAlong: as NewQueryAlong, for the edit route.
- DirectFixAlong: as NewQueryAlong, for the direct-fix route.
- FollowupFixAlong: as NewQueryAlong, for the follow-up-fix route.
- NewQueryRun: a completed run only in the corrected flow; as written `run` returns its input with `error` set (TextToSqlPaths.AsWrittenNeverAnswers).
- EditQueryRun: as NewQueryRun, for the edit route.
- DirectFixRun: as NewQueryRun, for the direct-fix route.
- FollowupFixRun: as NewQueryRun, for the follow-up-fix route.
- NewQueryAnswered: holds for the corrected `execute_flow` and text-to-SQL flow; as written `execute_flow` raises AttributeError before the flow runs (Orchestrator.ExecutionAsWrittenRaises).
- ImportConversation: the data is typed, so its raising paths are not modelled: an unknown role raises ValueError at conversation_manager.py:37, a malformed timestamp raises ValueError at :39 and :116-117, and a missing key raises KeyError in `from_dict`.
- ParseSchemaJson: a relationship is a typed record with `name`, `joinType` and `condition`, so the KeyError that database.py:62 raises for a relationship lacking one of them, once it is filed under a model, is not modelled.
- Json.JNum holds integers only: floats that `json.loads` yields, and their truthiness, are not represented.
- Instantiate: making a flow instance never raises here. So the `except Exception` branches of flow_registry.py:38-40 (skip that flow) and :57-59 (return None) are not modelled, nor an exception from the `ChatOpenAI(...)` constructors (text_to_sql.py:15, general_qa.py:12) leaving base.py:116-124 or the orchestrator's constructor.
- Json.Repr: strings are quoted with single quotes and no escaping; Python's `repr` escapes quotes and backslashes and switches to double quotes for a string holding a single quote. This reaches the list and dict values shown in the prompts and in the response sections.
- Faults.Message: the texts of TypeError and AttributeError are those the model gives them, and the texts for a failed model call and the recursion limit are stand-ins; they are the `error` that `run` reports, so `Engine.RunResult` states which exception, not Python's exact wording.
- Json.Get: a `JObj` may hold a key twice, which `json.loads` never yields (a later binding replaces an earlier one); `Get` takes the first binding, which agrees with Python on every value `json.loads` can produce.
- Concurrency, and the `storage_backend` argument of the conversation manager (only the in-memory store exists).
- Text.Split: only the round trip with `Join` and non-emptiness are stated; it is a helper for `str.split`.
- TextToSql.PreviousSql: states only the truthy-stored-query case; the search case is stated by `TextToSqlSteps.FindPrevious` and `TextToSql.LatestSelect`.

## Findings

| source | as written | input that shows it | evidently intended | confidence | as-written member | corrected member |
|---|---|---|---|---|---|---|
| app/services/flow_registry.py:83-84 | `re.match` with `$` accepts a name ending in one newline | the name "qa\n" is accepted | only lower-case letters, digits and underscores after a first letter | not executed | FlowRegistry.TrailingNewlineAccepted | FlowRegistry.IsFlowNameSound |
| app/utils/metadata_manager.py:23 | `col.get("name", "")` on each column, but the catalogue of app/core/database.py:10 lists columns as plain strings | `get_concise_schema()` on the manager's own catalogue raises AttributeError | take a plain-string column as its own name | not executed | MetadataManager.CatalogueConciseRaises | MetadataManager.CatalogueConciseNamed |
| app/flows/text_to_sql.py:106-113 | every step subscripts the state (`state["metadata"][...] = ...`), but the graph is declared over the FlowState model (text_to_sql.py:26), whose objects cannot be subscripted, and base.py:94 reads `state.messages` as a field | any request: analysis makes its model call, then raises TypeError; `run` returns its input with `error` set and no text-to-SQL run ever answers | steps that read and write the state's fields, as general_qa.py does | not executed; which object a node receives depends on the graph library, and with a dict instead base.py:94 raises AttributeError, with the same result for `run` | TextToSqlPaths.AsWrittenRunFails | TextToSqlPaths.NewQueryRun |
| app/services/orchestrator.py:103-112 | `execute_flow` passes a plain dict to `run`, which calls `state.dict()` and, in its handler, sets `state.error` | any registered flow: AttributeError at base.py:76, again at base.py:79, raised out of `execute_flow` | a FlowState built from the messages, and its fields read afterwards | not executed | Orchestrator.ExecutionAsWrittenRaises | Orchestrator.Execution |
