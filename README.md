# Issue-lifecycle agents, modelled in Dafny

This project models the core of a GitHub-driven development assistant. A
product-owner agent analyses each new issue with a reasoning backend,
asks clarifying questions or marks the issue ready for development, and
keeps a conversation record in a Supabase store. A developer agent turns
a ready issue into generated code, a branch with the files, a pull
request that closes the issue, and a code-generation record. An
orchestrator routes the lifecycle events (new issue, comment, label,
opened pull request, status query), and a webhook gateway checks GitHub's
signature and routes each delivery. There are three gateways: the main
one and two reduced child instances.

What the model covers, module by module:

- `IssueAnalysisModel`, `CodeGenerationModel`: the records the agents
  exchange, their required fields, defaults and bounds, and the
  conversation state with its turn numbering and status mapping.
- `Store`: the Supabase client over in-memory tables. Conversations,
  agent actions and code-generation records are typed tables, and
  `select`/`delete` work on any table.
- `Vcs`: the GitHub client's own rules over an abstract repository state.
  These are create-versus-update, tolerant label removal, idempotent
  "Closes #N" linking, branches and directory listings.
- `AgentBase`, `ProductOwner`, `Developer`: the agents' operations.
- `Orchestrator`: the lifecycle handlers.
- `Webhooks`, `ChildWebhooks`: the gateways. The test-child instance's
  signature check is the main gateway's check word for word, so
  `Webhooks.VerifySignature` models both.
- `Settings`, `LlmFactory`, `SqlSetup`: the settings validators and the
  process-wide settings object; provider and model resolution; the
  schema-script splitter and its execution loop.
- `Wrappers`, `Text`: shared `Option`/`Result` types and string helpers.

The three collaborators are classes whose fields the operations update:
the reasoning backend (`AgentBase.Llm`), the GitHub client (`Vcs.Repo`)
and the store client (`Store.Client`). Their combined state is a
`World`. Every operation has a pure specification that takes a `World`
to an `Effect`: the new world plus a result or the failure that escaped.
Each class method is proved to perform exactly that step. Lemmas about
the specifications state what the source promises: status mappings,
effect order, no rollback after a failure, and round trips.

Some behaviour belongs to the collaborators and is therefore a parameter
of the model:

- The backend's answers are a function of the messages and of the call
  count, so a retry can succeed.
- Decoding JSON is an oracle that either fails or yields the fields.
- The HMAC-SHA256 hex digest of RFC 2104 is an opaque signer.
- Failures of the hosting service and the database are a `fault` oracle
  on each request and the number of requests sent before it.

The store writes the analysis as a JSON string, while the label handler
reads it back as a mapping, so as written a "ready-for-dev" label on an
analysed issue fails before the developer runs (see "## Findings").
`Orchestrator.LabelEffectAsWritten` models that handler as written;
`Orchestrator.LabelEffect`, which the gateways use, keeps the analysis
as the structured record the handler expects.

Two behaviours of the code are stated as lemmas, as written:

- `Orchestrator.CommentBothFlags`: a comment analysis that is both
  complete and still needs clarification is stored as "ready_for_dev",
  yet the questions are asked again.
- `Vcs.LinkedBodyPrefixCollision`: linking uses a substring test, so a
  pull-request body that already closes issue 42 counts as linking
  issue 4 and is left unchanged.

## Model

| member | source | states |
|---|---|---|
| IssueAnalysisModel.ValidateIssueAnalysisRequired | src/models/issue_analysis.py:13-68 | an analysis object validates exactly when `needs_clarification` and `estimated_complexity` are both present; without either it fails |
| IssueAnalysisModel.IssueAnalysisDefaults | src/models/issue_analysis.py:21-62 | an object with only the two required fields validates with `is_complete` false, no refined description and all five lists empty |
| IssueAnalysisModel.DumpValidateRoundTrip | src/models/issue_analysis.py:13-68 | dumping an analysis to its fields and validating them again gives the same analysis |
| IssueAnalysisModel.MakeTurn | src/models/issue_analysis.py:91-115 | a turn is built exactly when its number is at least 1, and keeps the given number, questions and responses |
| IssueAnalysisModel.NextTurnKeepsNumbering | src/models/issue_analysis.py:162-184 | appending the turn `add_turn` builds to turns numbered 1..k gives turns numbered 1..k+1 |
| IssueAnalysisModel.TurnsAfterNumbering | src/models/issue_analysis.py:162-184 | after one `add_turn` per question list, the turns are numbered 1..k in order and the k-th holds the k-th question list |
| IssueAnalysisModel.StateStatusCases | src/models/issue_analysis.py:186-202 | `update_analysis` yields "ready_for_dev" iff the analysis is complete, "needs_clarification" iff incomplete and needing clarification, "analyzing" otherwise |
| IssueAnalysisModel.ConversationState.constructor | src/models/issue_analysis.py:118-160 | a new conversation has the given ids and repository, status "analyzing", no turns and no analysis |
| IssueAnalysisModel.ConversationState.WithStatus | src/models/issue_analysis.py:118-160 | a conversation built with an explicit status and analysis holds exactly those, with no turns |
| IssueAnalysisModel.ConversationState.AddTurn | src/models/issue_analysis.py:162-184 | `add_turn` appends one turn numbered one past the current count, returns it, leaves earlier turns, status and analysis unchanged, and keeps the numbering consecutive |
| IssueAnalysisModel.ConversationState.UpdateAnalysis | src/models/issue_analysis.py:186-202 | `update_analysis` stores the analysis, sets the status by the completeness-then-clarification rule and leaves the turns unchanged |
| CodeGenerationModel.ValidateFileChangeAccepts | src/models/code_generation.py:13-40 | a file change validates exactly when path, content and description are present; the operation defaults to "create" and the language is kept |
| CodeGenerationModel.ValidateTestFileAccepts | src/models/code_generation.py:55-82 | a test file validates exactly when its four required fields are present and the test count is not negative; coverage targets default to empty |
| CodeGenerationModel.ValidateFileChanges | src/models/code_generation.py:104-108 | a list of file changes validates exactly when every element does, and then gives one validated change per element, in order |
| CodeGenerationModel.ValidateTestFiles | src/models/code_generation.py:109-113 | a list of test files validates exactly when every element does, and then gives one validated test file per element, in order |
| CodeGenerationModel.ValidateCodeGenerationAccepts | src/models/code_generation.py:97-155 | a generation validates exactly when its four pull-request strings are present, every nested file and test file is valid and the test-time estimate is absent or not negative |
| CodeGenerationModel.CodeGenerationDefaults | src/models/code_generation.py:104-155 | a generation with only its four required strings has empty lists, no environment variables and no test-time estimate |
| CodeGenerationModel.FileChangesRoundTrip | src/models/code_generation.py:13-40 | dumping a list of file changes and validating it again gives the same list |
| CodeGenerationModel.TestFilesRoundTrip | src/models/code_generation.py:55-82 | dumping a list of test files and validating it again gives the same list |
| CodeGenerationModel.CodeGenerationRoundTrip | src/models/code_generation.py:97-155 | dumping a generation and validating it again gives the same generation |
| CodeGenerationModel.CodeGenerationResultDefaults | src/models/code_generation.py:244-283 | a result validates exactly when its generation does; with no other keys its status is "generated" with no PR number, URL or error; without a generation it fails |
| Store.Filter | src/utils/supabase_client.py:612-615 | the rows kept by the equality filters are exactly the table's rows that meet every filter, never more rows than the table has |
| Store.SortBy | src/utils/supabase_client.py:617-621 | ordering by a column gives a permutation of the rows that is sorted on that column, ascending or descending |
| Store.ExecuteFilters | src/utils/supabase_client.py:610-635 | every row a select returns is a row of the table meeting all of its filters |
| Store.ExecuteComplete | src/utils/supabase_client.py:610-635 | without a limit a select returns every matching row, each as often as the table holds it |
| Store.ExecuteLimit | src/utils/supabase_client.py:623-625 | a limit returns the smaller of the limit and the number of matching rows, so a zero limit returns none |
| Store.ExecuteOrdered | src/utils/supabase_client.py:617-621 | an ordered select returns its rows sorted on the requested column and direction |
| Store.ParseOrderBy | src/utils/supabase_client.py:618-621 | an empty `order_by` means no order; otherwise descending iff it starts with "-", and the column is what remains after all leading "-" are stripped |
| Store.BuildQuery | src/utils/supabase_client.py:587-625 | the query keeps table and filters, orders only when `order_by` is given, and limits only when the limit is given and non-zero |
| Store.FindConversation | src/utils/supabase_client.py:121-158 | the lookup finds nothing iff no conversation has that issue number and repository, and otherwise a conversation that does |
| Store.FindConversationFirst | src/utils/supabase_client.py:136-151 | the conversation returned is the first matching one in table order |
| Store.CreateConversationStep | src/utils/supabase_client.py:67-119 | a successful create appends one "analyzing" conversation without analysis and returns its fresh identifier; a failed one changes nothing |
| Store.CreatedConversationIsFound | src/utils/supabase_client.py:67-158 | after creating a conversation for an issue that had none, `get_conversation` finds exactly that new conversation |
| Store.UpdateStatusStep | src/utils/supabase_client.py:169-209 | a status update succeeds iff the request goes through and a row has that identifier; then exactly those rows change status, otherwise nothing changes |
| Store.UpdateAnalysisStep | src/utils/supabase_client.py:211-251 | an analysis update succeeds iff the request goes through and a row has that identifier; then exactly those rows get the analysis, otherwise nothing changes |
| Store.FindAfterSetStatus | src/utils/supabase_client.py:121-209 | after updating the status of the conversation a lookup found, the same lookup finds that conversation with the new status |
| Store.FindAfterSetAnalysis | src/utils/supabase_client.py:121-251 | after storing an analysis on the conversation a lookup found, the same lookup finds that conversation with the analysis |
| Store.FoundConversationExists | src/utils/supabase_client.py:121-209 | a conversation returned by the lookup has an identifier that an update can match |
| Store.LogActionStep | src/utils/supabase_client.py:257-312 | a successful log appends one "success" action with the given fields and returns its fresh identifier; a failed one changes nothing |
| Store.CreateGenerationStep | src/utils/supabase_client.py:354-410 | a successful create appends one "generated" record with the given files and returns its fresh identifier; a failed one changes nothing |
| Store.GenerationChanges | src/utils/supabase_client.py:433-439 | the update payload always sets the status and sets the PR number and the error message exactly when they are given, and nothing else |
| Store.UpdateGenerationStep | src/utils/supabase_client.py:412-464 | a generation update succeeds iff the request goes through and a record has that identifier; then exactly those records change, otherwise nothing changes |
| Store.ChangeNewestGeneration | src/utils/supabase_client.py:412-464 | updating the newest record, whose identifier no older record shares, changes that record alone |
| Store.ChangeGenerationKeeps | src/utils/supabase_client.py:433-439 | a status-only update leaves the stored PR number and error message as they were |
| Store.DeleteStep | src/utils/supabase_client.py:646-679 | a delete fails only when the request fails; otherwise it removes exactly the rows with that identifier from that table |
| Store.DeleteMissingConversation | src/utils/supabase_client.py:646-679 | deleting an identifier no conversation has changes nothing and still succeeds |
| Store.DeleteRemovesConversation | src/utils/supabase_client.py:646-679 | after a successful delete no conversation has that identifier and all others remain |
| Store.Client.constructor | src/utils/supabase_client.py:41-65 | a client starts on the given database contents and failure oracle |
| Store.Client.CreateConversation | src/utils/supabase_client.py:67-119 | the new state and result are those of `CreateConversationStep` on the old state |
| Store.Client.GetConversation | src/utils/supabase_client.py:121-167 | the result is the first conversation of that issue and repository, nothing, or the database error, and the state is unchanged |
| Store.Client.UpdateConversationStatus | src/utils/supabase_client.py:169-209 | the new state and result are those of `UpdateStatusStep` on the old state |
| Store.Client.UpdateConversationAnalysis | src/utils/supabase_client.py:211-251 | the new state and result are those of `UpdateAnalysisStep` on the old state |
| Store.Client.LogAgentAction | src/utils/supabase_client.py:257-312 | the new state and result are those of `LogActionStep` on the old state |
| Store.Client.GetAgentActions | src/utils/supabase_client.py:314-348 | the result is the select of the conversation's actions, newest first, at most `limit` of them; the limit is always applied, even when it is zero |
| Store.Client.CreateCodeGeneration | src/utils/supabase_client.py:354-410 | the new state and result are those of `CreateGenerationStep` on the old state |
| Store.Client.UpdateCodeGenerationStatus | src/utils/supabase_client.py:412-464 | building the payload column by column gives `GenerationChanges`, and the new state and result are those of `UpdateGenerationStep` |
| Store.Client.Select | src/utils/supabase_client.py:587-644 | building the query filter by filter, then order, then limit gives `BuildQuery`, and the result is that query run on the current rows or the database error |
| Store.Client.Delete | src/utils/supabase_client.py:646-679 | the new state and result are those of `DeleteStep` on the old state |
| Vcs.RemoveEachSendsAll | src/utils/github_api.py:281-288 | one removal request is sent per label, in list order, whatever the answers to the earlier ones |
| Vcs.RemoveEachLabels | src/utils/github_api.py:281-288 | after the removals no label is added, labels outside the list stay, and every label whose removal the service accepted is gone |
| Vcs.RemoveEachFrame | src/utils/github_api.py:281-288 | the removals change the labels of that issue only |
| Vcs.RemoveLabelsTolerant | src/utils/github_api.py:264-310 | removing labels reports success exactly when the issue lookup succeeds, however many single removals fail |
| Vcs.CreatePullStep | src/utils/github_api.py:312-367 | one creation request is sent; on success the new pull request has the next number, the given title, body, head and base |
| Vcs.LinkedBodyLinks | src/utils/github_api.py:463-468 | the linked body mentions "Closes #n" and begins with the old body |
| Vcs.LinkedBodyIdempotent | src/utils/github_api.py:463-468 | linking an already linked body changes nothing |
| Vcs.LinkedBodyPrefixCollision | src/utils/github_api.py:463-468 | the mention test is a substring test: a body closing issue 42 counts as linking issue 4 and is left as it is |
| Vcs.LinkStepEdits | src/utils/github_api.py:443-488 | after a successful link the body is the linked body, and an edit request was sent iff the body did not already mention the issue |
| Vcs.LinkStepIdempotent | src/utils/github_api.py:443-488 | a second link of the same issue sends nothing and changes nothing, and succeeds unless the lookup of the pull request fails |
| Vcs.CreateBranchCopies | src/utils/github_api.py:490-529 | a created branch did not exist before, its source did, and it starts with the source branch's files |
| Vcs.BranchExistsIff | src/utils/github_api.py:531-549 | a branch is reported to exist exactly when its reference lookup succeeds |
| Vcs.WriteFileRequests | src/utils/github_api.py:551-604 | an existing file is updated, and an update answered 404 is followed by a creation; a 404 on the lookup leads to a creation alone; any other lookup error is returned with nothing sent |
| Vcs.WriteFileStores | src/utils/github_api.py:551-604 | a successful write leaves the given content at the path and changes no other file or branch |
| Vcs.WriteFileKeepsFiles | src/utils/github_api.py:551-604 | writes never remove a branch or a file |
| Vcs.FileContentAt | src/utils/github_api.py:606-637 | the text is returned exactly when a file exists at the path and the lookup succeeds; a directory or a 404 gives nothing; any other error is returned |
| Vcs.ItemsOf | src/utils/github_api.py:697-711 | a single file is listed as a one-item list; a directory gives its items in order |
| Vcs.Repo.constructor | src/utils/github_api.py:118-143 | a client starts on the given repository name, service and repository contents |
| Vcs.Repo.CreateIssueComment | src/utils/github_api.py:180-220 | the new state and result are those of looking the issue up and posting the comment |
| Vcs.Repo.AddLabelsToIssue | src/utils/github_api.py:222-262 | the new state and result are those of looking the issue up and adding all labels in one request |
| Vcs.Repo.RemoveLabelsFromIssue | src/utils/github_api.py:264-310 | the loop sends the removals one by one, ignoring refusals, and ends in the state `RemoveLabelsStep` describes |
| Vcs.Repo.CreatePullRequest | src/utils/github_api.py:312-367 | the new state and result are those of `CreatePullStep` |
| Vcs.Repo.LinkIssueToPr | src/utils/github_api.py:443-488 | the new state and result are those of fetching the pull request and editing its body only when needed |
| Vcs.Repo.CreateBranch | src/utils/github_api.py:490-529 | the new state and result are those of reading the source reference and then creating the branch |
| Vcs.Repo.IsBranch | src/utils/github_api.py:531-549 | true exactly when the branch exists and its reference lookup succeeds; nothing changes |
| Vcs.Repo.CreateOrUpdateFile | src/utils/github_api.py:551-604 | the new state and result are those of `WriteFileStep`: update, create when the lookup or the update is answered 404, or fail |
| Vcs.Repo.GetFileContent | src/utils/github_api.py:606-637 | the result is `FileContentAt` on the current state, and a returned text is the file's content on that branch |
| Vcs.Repo.GetRepositoryStructure | src/utils/github_api.py:680-721 | a failed lookup returns its error; otherwise one entry per listed item, in the service's order |
| AgentBase.ContextLines | src/agents/base.py:172-176 | definition: the additional context as one "- key: value" line per entry, in order; what it contributes to the system text is stated by `AgentBase.SystemTextSections` |
| AgentBase.SystemTextSections | src/agents/base.py:162-180 | the system text starts with the agent's prompt, contains the domain section when the domain context is non-empty, ends with the additional-context section when context is given, is the prompt alone with neither, and is passed through `customize_prompt` |
| AgentBase.Messages | src/agents/base.py:142-201 | the messages are the system text, then the history in order, then the user's input |
| AgentBase.Attempts | src/agents/base.py:270-275 | the number of attempts allowed is the configured maximum when it is at least 1, and there is always at least one |
| AgentBase.RetryBounds | src/agents/base.py:250-279 | a retried call makes at least one and at most the allowed number of backend calls |
| AgentBase.RetryFirstSuccess | src/agents/base.py:250-279 | a retried call that answers returns the first successful answer, and every earlier call failed |
| AgentBase.RetryExhausted | src/agents/base.py:250-279 | a retried call that fails made every allowed call, and each of them failed |
| AgentBase.LogEffectWritesOne | src/agents/base.py:285-316 | logging an action appends exactly one action under the agent's name and returns its identifier, changing nothing else; a failed log changes nothing |
| AgentBase.UpdateStateWrites | src/agents/base.py:318-341 | without an analysis only the status is written; on success the conversations with that identifier carry the status, and the analysis when given, and all other rows are unchanged |
| AgentBase.GetOrCreateReuses | src/agents/base.py:347-391 | an existing conversation is reused with nothing created; otherwise exactly one conversation is created, and a later lookup finds it |
| AgentBase.FormatComment | src/agents/base.py:393-413 | the formatted comment starts with the content and, when a signature is asked for, ends with the agent's signature and nothing else is added; otherwise it is the content |
| AgentBase.Llm.constructor | src/agents/base.py:53-85 | a backend starts with no calls made |
| AgentBase.Llm.Invoke | src/agents/base.py:204-248 | one call is made, counted, and its answer is the backend's answer to those messages at that call number |
| AgentBase.BaseAgent.constructor | src/agents/base.py:53-85 | an agent holds its persona and the shared backend, GitHub client and store client |
| AgentBase.BaseAgent.BuildMessages | src/agents/base.py:142-201 | the messages built are the system text, the history and the user's input, in that order |
| AgentBase.BaseAgent.InvokeWithRetry | src/agents/base.py:250-279 | the loop makes the calls and ends in the world and result the retry specification gives |
| AgentBase.BaseAgent.CreateIssueComment | src/agents/product_owner.py:270 | an agent's comment changes the repository as posting the comment on the issue does, and a refused comment becomes the agent's GitHub failure |
| AgentBase.BaseAgent.LogAction | src/agents/base.py:285-316 | the new world and result are those of logging one action under the agent's name |
| AgentBase.BaseAgent.UpdateConversationState | src/agents/base.py:318-341 | the status update, then the analysis update when one is given, as `UpdateStateWrites` describes |
| AgentBase.BaseAgent.GetOrCreateConversation | src/agents/base.py:347-391 | the new world and result are those of looking the conversation up and creating it when missing |
| ProductOwner.ParseAnalysis | src/agents/product_owner.py:133-163 | the answer parses exactly when it decodes and the decoded object validates as an analysis, and then it is that validated analysis |
| ProductOwner.AnalyzeLogsOnce | src/agents/product_owner.py:94-183 | a returned analysis is the parsed answer of the backend and is logged once as "issue_analyzed" with its question count; an answer that does not parse escapes with the store unchanged |
| ProductOwner.AnalyzeFrame | src/agents/product_owner.py:94-183 | analysing touches neither the repository nor the conversations |
| ProductOwner.AskEffectRequests | src/agents/product_owner.py:233-283 | on success exactly two requests were sent: the signed questions comment, then the single label "needs-clarification", which the issue now carries |
| ProductOwner.AskFrame | src/agents/product_owner.py:233-283 | asking questions changes no conversation and makes no backend call |
| ProductOwner.QuestionsCommentLists | src/agents/product_owner.py:256-266 | the questions comment opens with its header and the questions numbered from 1 in order, and ends with its closing line and the agent's signature |
| ProductOwner.ReadyBodyShape | src/agents/product_owner.py:314-325 | the ready comment opens with the refined description; without criteria it is the description followed by the closing line only |
| ProductOwner.ReadyBodyCriteria | src/agents/product_owner.py:318-322 | with criteria, the ready comment holds the criteria heading followed by the criteria numbered from 1 |
| ProductOwner.MarkReadyRequests | src/agents/product_owner.py:285-345 | on success the requests were, in order, the comment, the removal of "needs-clarification" and one request adding the suggested labels followed by "ready-for-dev", which the issue now carries |
| ProductOwner.MarkReadyFrame | src/agents/product_owner.py:285-345 | marking ready changes no conversation and makes no backend call |
| ProductOwner.ProcessLogsConversation | src/agents/product_owner.py:347-419 | a processed answer is logged once as "user_response_processed" under the conversation, and its payload names the conversation |
| ProductOwner.ResponsePromptNumbers | src/agents/product_owner.py:382-384 | the user's answers appear in the prompt numbered from 1 in their order |
| ProductOwner.ProcessFrame | src/agents/product_owner.py:347-419 | processing an answer touches neither the repository nor the conversations |
| ProductOwner.WorkflowStatus | src/agents/product_owner.py:478-482 | the stored status is "needs_clarification" iff the analysis needs clarification, and "ready_for_dev" otherwise |
| ProductOwner.FollowUpFrame | src/agents/product_owner.py:484-497 | the follow-up changes no conversation and makes no backend call |
| ProductOwner.StoredThenFollowedUp | src/agents/product_owner.py:477-497 | storing a status and an analysis and then following up leaves the issue's conversation carrying both |
| ProductOwner.WorkflowStoresStatus | src/agents/product_owner.py:422-515 | after the workflow the issue's conversation holds the analysis and the status chosen by `needs_clarification` alone, and the returned state agrees with it |
| ProductOwner.GetOrCreateFinds | src/agents/product_owner.py:464-469 | the conversation identifier the workflow uses is that of the conversation a lookup of the issue finds |
| ProductOwner.WorkflowFollowUp | src/agents/product_owner.py:484-497 | with clarification needed the first request is the questions comment; otherwise, when complete, the ready comment with the refined description or else the issue body; with neither flag the repository is untouched |
| ProductOwner.BuildQuestionsBody | src/agents/product_owner.py:256-263 | the loop builds the questions comment one numbered line at a time and yields the questions body |
| ProductOwner.BuildReadyBody | src/agents/product_owner.py:314-325 | the loop builds the ready comment, with the criteria block only when there are criteria |
| ProductOwner.ProductOwnerAgent.constructor | src/agents/product_owner.py:24-40 | the agent holds its base agent and its output parser |
| ProductOwner.ProductOwnerAgent.Parse | src/agents/product_owner.py:153-163 | the result is `ParseAnalysis` of the answer |
| ProductOwner.ProductOwnerAgent.AnalyzeIssue | src/agents/product_owner.py:94-183 | the new world and result are those of the analysis specification |
| ProductOwner.ProductOwnerAgent.AskClarifyingQuestions | src/agents/product_owner.py:233-283 | the new world and result are those of the questions specification |
| ProductOwner.ProductOwnerAgent.MarkReadyForDevelopment | src/agents/product_owner.py:285-345 | the new world and result are those of the ready specification |
| ProductOwner.ProductOwnerAgent.ProcessUserResponse | src/agents/product_owner.py:347-419 | the new world and result are those of the follow-up analysis specification |
| ProductOwner.ProductOwnerAgent.FollowUp | src/agents/product_owner.py:484-497 | the new world and result are those of asking, marking ready or doing nothing by the analysis flags |
| ProductOwner.ProductOwnerAgent.HandleIssueWorkflow | src/agents/product_owner.py:422-515 | the new world and result are those of the workflow specification, and the returned state object has the issue, status and analysis it names |
| ProductOwner.AnalysisPromptNamesIssue | src/agents/product_owner.py:185-230 | the analysis prompt names the issue title, its description and every existing label, and says "None" when there is no label |
| Developer.ParseGeneration | src/agents/developer.py:170-198 | the answer parses exactly when it decodes and the decoded object validates as a generation, and then it is that validated generation |
| Developer.GenerationPromptSections | src/agents/developer.py:220-297 | the prompt opens with the requirements section and ends with the codebase context exactly when a non-empty one is given, else with the tech stack section |
| Developer.GenerateLogsOnce | src/agents/developer.py:133-218 | a returned generation is the parsed answer of the backend and is logged once as "code_generated"; an answer that does not parse escapes with the store unchanged; the repository is never touched |
| Developer.ImplementationWrites | src/agents/developer.py:340-346 | definition: the implementation files as writes, in order, each at its path with its content and the message "Add <path>"; that each becomes one commit is stated by `Developer.WriteAllSends` |
| Developer.TestWrites | src/agents/developer.py:350-356 | definition: the test files as writes, in order, each at its path with its content and the message "Add tests: <path>"; that each becomes one commit is stated by `Developer.WriteAllSends` |
| Developer.WriteFileSendsCommit | src/agents/developer.py:340-358 | a successful commit of one file keeps what was sent before and then sends the update, the creation, or the update answered 404 followed by the creation of that file on the branch |
| Developer.WriteAllStops | src/agents/developer.py:333-411 | once a commit fails the later ones are not attempted: the run ends as it was at the failure |
| Developer.WriteAllSends | src/agents/developer.py:340-358 | when every commit succeeds, what was sent splits, in order, into the one or two requests of one commit per file |
| Developer.SentCommitsLength | src/agents/developer.py:340-358 | a run of commits sent at least one and at most two requests per file |
| Developer.SentCommitsAppend | src/agents/developer.py:340-358 | the commits of the files followed by the commits of the tests are the commits of the files and tests together, in that order |
| Developer.WriteAllStores | src/agents/developer.py:340-358 | when every commit succeeds each path holds the content of the last commit made to it |
| Developer.EnsureBranchRule | src/agents/developer.py:334-337 | an existing branch is reused untouched; otherwise the branch is created from main as a copy of it |
| Developer.LinkKeepsEnds | src/utils/github_api.py:443-488 | linking only appends to what was sent and keeps every pull request's head and base |
| Developer.PublishOpensLinkedPull | src/agents/developer.py:333-371 | a published pull request goes from the generated branch into main and its body links the issue |
| Developer.PublishOpensAfterCommits | src/agents/developer.py:340-366 | after the commits succeed the next request sent is the pull request with the generated title, description and branch into main |
| Developer.PublishCommitsBeforeOpening | src/agents/developer.py:333-366 | after the branch is settled the requests sent are the commits of the files, then those of the tests, then the pull request |
| Developer.CommitsAfterBranch | src/agents/developer.py:340-366 | two successful runs of commits followed by the pull request leave the commits of both, in order, and then the pull request |
| Developer.TryPrFrame | src/agents/developer.py:333-409 | the attempt leaves the repository as publishing left it, touches no conversation and on success adds the "pr_created" generation record as the newest |
| Developer.CreatePrOutcomes | src/agents/developer.py:300-442 | every result is either "pr_created" with the pull request's number and address and no error, or "failed" with the attempt's error text and neither number nor address |
| Developer.CreatePrSuccess | src/agents/developer.py:333-409 | a "pr_created" result names an open pull request from the generated branch into main whose body links the issue, and the newest record says "pr_created" with that number |
| Developer.CreatePrFailure | src/agents/developer.py:411-442 | after a "failed" result the newest generation record says "failed", has no pull request number and carries the error text |
| Developer.AnnounceSends | src/agents/developer.py:497-509 | a result with an address is announced by exactly one signed comment naming it, and is returned unchanged |
| Developer.AnnounceNothing | src/agents/developer.py:497 | a result without an address is returned as it is and nothing is sent |
| Developer.HandleReadyAnnounces | src/agents/developer.py:445-517 | after a "pr_created" result the last request sent is the comment naming its address; after a "failed" result nothing was sent after the failed attempt |
| Developer.DeveloperAgent.constructor | src/agents/developer.py:28-45 | the agent holds its base agent and its output parser |
| Developer.DeveloperAgent.Parse | src/agents/developer.py:188-198 | the result is `ParseGeneration` of the answer |
| Developer.DeveloperAgent.GenerateCode | src/agents/developer.py:133-218 | the new world and result are those of the generation specification |
| Developer.DeveloperAgent.CommitFiles | src/agents/developer.py:340-358 | the loop commits the files one at a time, stops at the first failure, and ends as `WriteAll` says |
| Developer.DeveloperAgent.EnsureBranch | src/agents/developer.py:334-337 | the new repository state and result are those of reusing or creating the branch |
| Developer.DeveloperAgent.Publish | src/agents/developer.py:333-371 | the new repository state and result are those of `PublishStep` |
| Developer.DeveloperAgent.TryCreatePullRequest | src/agents/developer.py:333-409 | the new world and result are those of the `try` body |
| Developer.DeveloperAgent.CreatePullRequest | src/agents/developer.py:300-442 | the new world and result are those of `create_pull_request`, failure record included |
| Developer.DeveloperAgent.Announce | src/agents/developer.py:497-509 | the new world and result are those of announcing the pull request when there is an address |
| Developer.DeveloperAgent.HandleReadyForDevIssue | src/agents/developer.py:445-517 | the new world and result are those of generating, opening the pull request and announcing it |
| Orchestrator.CommentStatus | src/workflows/issue_handler.py:170-174 | a processed comment stores "ready_for_dev" iff the new analysis is complete, and "needs_clarification" otherwise |
| Orchestrator.StatusRulesAgree | src/workflows/issue_handler.py:170-209 | the first-analysis rule and the comment rule agree exactly when the two flags differ; the conversation record's own rule agrees with the comment rule exactly when at least one flag is set |
| Orchestrator.CommentIgnored | src/workflows/issue_handler.py:142-161 | a comment is ignored, with nothing changed, exactly when the lookup succeeds but finds no conversation awaiting clarification; a failed lookup changes nothing and fails |
| Orchestrator.CommentStoresStatus | src/workflows/issue_handler.py:163-211 | after a processed comment the issue's conversation holds the new analysis and the status chosen by `is_complete`, and the returned state carries the same status, analysis and issue |
| Orchestrator.CommentFollowUp | src/workflows/issue_handler.py:176-190 | with clarification still needed the first request is the questions comment; otherwise, when complete, the ready comment with the refined description or nothing; with neither flag the repository is untouched |
| Orchestrator.CommentBothFlags | src/workflows/issue_handler.py:170-190 | with both flags set the conversation is stored as ready for development, yet the follow-up asks the questions again |
| Orchestrator.LabelIgnoresOthers | src/workflows/issue_handler.py:247-252 | any label other than "ready-for-dev" is ignored before the store is read |
| Orchestrator.LabelRunsDeveloperOnce | src/workflows/issue_handler.py:213-293 | the developer runs exactly when the trigger label meets a conversation with a refined description, then once on that description and the stored criteria; otherwise nothing changes |
| Orchestrator.LabelAsWrittenNeverDevelops | src/workflows/issue_handler.py:255-270 | as written, the label handler leaves the repository, store and backend untouched, never yields a generation, and fails with "'str' object has no attribute 'get'" whenever the trigger label meets a conversation holding an analysis |
| Orchestrator.AnalysedIssueLabelFails | src/utils/supabase_client.py:226-232 | after the product owner's workflow has analysed an issue, the "ready-for-dev" label on it fails as written on the stored text, while the handler as intended is triggered whenever that analysis has a refined description |
| Orchestrator.LabelAnnouncesPullRequest | src/workflows/issue_handler.py:255-293 | a triggered label that ends with a pull request leaves the comment announcing it as the last request |
| Orchestrator.PrOpenedMovesToDevelopment | src/workflows/issue_handler.py:295-333 | only conversations change, and only when the pull request names a non-zero issue that has a conversation; that conversation then moves to "in_development" with its analysis kept |
| Orchestrator.ReportShowsConversation | src/workflows/issue_handler.py:335-389 | without a conversation the report is "not_started"; with one it shows its status, issue, creation time and analysis and counts at most fifty actions |
| Orchestrator.ReportNewestGeneration | src/workflows/issue_handler.py:371-389 | the report has a code-generation record exactly when the conversation has one, and then shows the pull-request number of its newest record |
| Orchestrator.LatestQueryShape | src/workflows/issue_handler.py:372-377 | the newest-record query filters on the conversation, orders by creation time descending and keeps one row |
| Orchestrator.LatestGenerationRows | src/workflows/issue_handler.py:372-387 | the newest-record query returns a row exactly when the conversation has a record, and then the row of its newest record |
| Orchestrator.NewestFirst | src/workflows/issue_handler.py:372-387 | a list of the conversation's records sorted newest first starts with its newest record |
| Orchestrator.IssueWorkflowOrchestrator.constructor | src/workflows/issue_handler.py:35-50 | the orchestrator holds the two agents it is given |
| Orchestrator.IssueWorkflowOrchestrator.HandleNewIssue | src/workflows/issue_handler.py:52-106 | the new world and result are those of the product owner's workflow |
| Orchestrator.IssueWorkflowOrchestrator.HandleIssueComment | src/workflows/issue_handler.py:108-211 | the new world and result are those of `IssueCommentEffect` |
| Orchestrator.IssueWorkflowOrchestrator.HandleLabelAdded | src/workflows/issue_handler.py:213-293 | the new world and result are those of `LabelEffect`, the lookup made through the product owner's store client |
| Orchestrator.IssueWorkflowOrchestrator.HandlePrOpened | src/workflows/issue_handler.py:295-333 | the new world and result are those of `PrOpenedEffect` |
| Orchestrator.IssueWorkflowOrchestrator.GetWorkflowStatus | src/workflows/issue_handler.py:335-389 | the report is `StatusReport` of the current store, and nothing changes |
| Orchestrator.CreateWorkflowOrchestrator | src/workflows/issue_handler.py:392-409 | a new orchestrator over the two agents given |
| Webhooks.NamedDigest | api/webhooks.py:67 | the digest a "sha256=" header names is the text after the prefix up to the next "=", and holds no "=" |
| Webhooks.VerifySignature | api/webhooks.py:45-78 | a missing, empty or unprefixed header is rejected; otherwise the signature is accepted exactly when the named digest equals the body's HMAC, and a non-ASCII digest on either side raises instead of answering |
| Webhooks.SignatureIgnoresTail | api/webhooks.py:67 | whatever follows a second "=" in the header does not change the decision |
| Webhooks.SignatureAcceptsOwnDigest | api/webhooks.py:45-78 | the header GitHub sends, the prefix followed by the body's own HMAC, is accepted |
| Webhooks.DigitRun | api/webhooks.py:384 | the digits read after "Closes #" are the longest run of digits there |
| Webhooks.FindCloses | api/webhooks.py:382-386 | the search finds the first position where "[Cc]loses #" followed by a digit matches, and nothing exactly when there is none |
| Webhooks.LinkedIssue | api/webhooks.py:381-386 | a pull request body names no issue exactly when the pattern matches nowhere; a named issue is never negative |
| Webhooks.LinkedIssueFirstMatch | api/webhooks.py:384-386 | the issue is read from the first match, and only its leading digits count |
| Webhooks.LinkedIssueReadsLink | api/webhooks.py:381-386 | a body without a match, followed by the blank line and "Closes #n" that linking appends, names issue n |
| Webhooks.RejectsBadSignature | api/webhooks.py:143-150 | a bad signature is answered 401 before the payload is read and before any agent acts; a 401 means the signature was bad |
| Webhooks.ResponseCodes | api/webhooks.py:119-200 | every answer is 200, 401 or 500, and a 500 answer has status "error" |
| Webhooks.PingAndUnknownEvents | api/webhooks.py:171-186 | "ping" and unknown events are answered 200 without any agent acting: "Pong!" for a ping, status "ignored" otherwise |
| Webhooks.OpenedIssueRunsWorkflow | api/webhooks.py:203-285 | an opened issue runs the product owner's workflow and the answer carries the stored status, or a 500 with the error text; other actions except "labeled" are ignored without effect |
| Webhooks.LabeledIssueAnswers | api/webhooks.py:254-280 | a label that does not start development is answered "Label not a trigger" with nothing changed |
| Webhooks.CommentRouting | api/webhooks.py:288-351 | a bot's comment is ignored whatever the action; only a created comment reaches the orchestrator, and no awaiting conversation is answered "No active conversation" |
| Webhooks.PullRequestRouting | api/webhooks.py:354-406 | a null body is a server error whatever the action; only an opened pull request reaches the orchestrator, with the issue its body closes |
| Webhooks.CreateAgents | api/webhooks.py:81-115 | it fails exactly when a collaborator fails to build, with the error of the first one in the order chat model, repository lookup, store client; otherwise both agents are built over the same backend, GitHub client and store client, each with its own persona and parser |
| Webhooks.HandleIssuesEvent | api/webhooks.py:203-285 | the new world and answer are those of `IssuesEvent` |
| Webhooks.HandleIssueCommentEvent | api/webhooks.py:288-351 | the new world and answer are those of `CommentEvent` |
| Webhooks.HandlePullRequestEvent | api/webhooks.py:354-406 | the new world and answer are those of `PullRequestEvent` |
| Webhooks.GithubWebhook | api/webhooks.py:119-200 | the new world and answer are those of `WebhookDelivery`: signature, then payload, then the agents, then the event's handler, with an escaping error answered 500 |
| Webhooks.BuildFailureAnswers | api/webhooks.py:153-200 | past the signature and the parse, agents that fail to build make every event, a ping included, answer 500 with that error and change nothing; agents that build leave the answer to the event's handler |
| ChildWebhooks.TemplateVerifySignature | templates/child-template/api/webhooks.py:57-66 | a missing or unprefixed header is rejected by the one combined guard; otherwise the digests are compared |
| ChildWebhooks.TemplateSignatureAgrees | templates/child-template/api/webhooks.py:57-66 | the template's combined guard decides exactly as the main gateway's two guards |
| ChildWebhooks.ChildRejectsBadSignature | test-child/api/webhooks.py:162-169 | a bad signature is answered 401, untagged, before anything else, in both child gateways; a 401 means a bad signature |
| ChildWebhooks.ChildRoutesOnlyOpenedIssues | templates/child-template/api/webhooks.py:126-161 | only an opened issue reaches an agent; any other issue action answers nothing (null), and every other event leaves the world as it was with a 200 answer |
| ChildWebhooks.ChildTags | test-child/api/webhooks.py:182-247 | the test-child instance tags every answer but the 401 with "test-child-ecommerce"; the template tags none |
| ChildWebhooks.ChildRouteTags | test-child/api/webhooks.py:182-229 | every answer a child routes carries the instance tag exactly as the instance requires, and is never a 401 |
| ChildWebhooks.ChildActsAsMain | test-child/api/webhooks.py:137-247 | on every event a child routes it changes the world exactly as the main gateway does |
| ChildWebhooks.ChildWebhook | templates/child-template/api/webhooks.py:102-176 | the new world and answer are those of `ChildDelivery` for the instance, with agents that fail to build answered 500 before any routing |
| ChildWebhooks.ChildBuildFailureAnswers | test-child/api/webhooks.py:172-247 | past the signature and the parse, agents that fail to build make a child answer 500 with that error, tagged as the instance tags, and change nothing |
| Settings.ValidateGithubRepoAccepts | src/config/settings.py:162-175 | a repository name is accepted exactly when it is non-empty, holds exactly one "/" and neither starts nor ends with it; an accepted name is kept unchanged |
| Settings.ValidateGithubRepoOwnerRepo | src/config/settings.py:162-175 | "owner/repo" is accepted for every non-empty owner and repo that hold no "/" |
| Settings.ValidateSupabaseUrlAccepts | src/config/settings.py:177-189 | a URL is accepted exactly when it starts with "https://" and ends with ".supabase.co", is kept unchanged, and a missing scheme is the first error reported |
| Settings.ValidateSupabaseUrlProject | src/config/settings.py:177-189 | every project URL "https://<ref>.supabase.co" is accepted |
| Settings.LoadedIsValid | src/config/settings.py:13-189 | a settings object that loads satisfies every declared bound and both validators, and keeps the repository and URL from the environment |
| Settings.LoadFailsOnMissingRequired | src/config/settings.py:35-110 | loading fails when the repository or API key is unset or the port is above 65535 |
| Settings.LoadDefaults | src/config/settings.py:31-150 | unset optional variables take their declared defaults: openai, "gpt-4", 2000 tokens, 60 s and 30 s timeouts, development, port 8000, debug off, INFO, json, no Vercel environment, 3 retries |
| Settings.EnvironmentFlagsExclusive | src/config/settings.py:208-221 | production and development are never both reported, and staging reports neither |
| Settings.SettingsRegistry.constructor | src/config/settings.py:252 | no settings object exists before the first request |
| Settings.SettingsRegistry.GetSettings | src/config/settings.py:255-268 | the first successful call builds a new object from the environment and keeps it; later calls return that same object; a failed load keeps nothing |
| Settings.SettingsRegistry.ReloadSettings | src/config/settings.py:271-282 | a successful reload always builds a new object and makes it the current one; a failed load leaves the current one |
| Settings.GetSettingsTwice | src/config/settings.py:255-268 | once a call has succeeded, the next call returns the very same object whatever the environment then holds |
| LlmFactory.KindOf | src/utils/llm_factory.py:80-87 | exactly the three supported names have a provider, and each of them has a default model |
| LlmFactory.DefaultModelsCoverProviders | src/utils/llm_factory.py:80-87 | the default-model table has exactly the supported providers as keys |
| LlmFactory.ResolveAliasIdempotent | src/utils/llm_factory.py:90-98 | looking a model up in the alias table twice gives what looking it up once gives |
| LlmFactory.ResolvedModelIsNotAlias | src/utils/llm_factory.py:151-156 | the model `create_llm` settles on, defaulted or given, is never itself an alias name |
| LlmFactory.WithLoggingHandler | src/utils/llm_factory.py:158-162 | the callback list afterwards holds a logging handler; a list that had one is unchanged, any other gains exactly one entry |
| LlmFactory.WithLoggingHandlerIdempotent | src/utils/llm_factory.py:158-162 | adding the logging handler a second time changes nothing |
| LlmFactory.SupportedProvidersTextIsJoin | src/utils/llm_factory.py:146-149 | the provider list in the error message is the supported providers joined by ", " |
| LlmFactory.Build | src/utils/llm_factory.py:173-204 | each provider gets its own chat-model class around the resolved model and the very callback list; only OpenAI and Anthropic take the token limit and key, and only when they are non-zero and non-empty |
| LlmFactory.Resolve | src/utils/llm_factory.py:142-156 | the provider, lower-cased and stripped, fails exactly when unsupported, with the message naming it; otherwise the model is the provider's default when absent and the alias target when given |
| LlmFactory.CreateLlm | src/utils/llm_factory.py:101-214 | an unsupported provider fails and leaves the caller's list alone; otherwise the caller's list (or a new one) gets the logging handler, and then the chat-model class's error is raised again or the built model holds that same list |
| LlmFactory.AddLoggingHandler | src/utils/llm_factory.py:161-162 | the list is appended a logging handler exactly when it has none |
| LlmFactory.GetDefaultModelAgrees | src/utils/llm_factory.py:335-352 | a provider `get_default_model` accepts is supported, and its answer is the model `create_llm` uses when none is given |
| LlmFactory.PaddedProviderName | src/utils/llm_factory.py:336-352 | a supported name with a leading space is accepted by `create_llm`, which strips, and rejected by `get_default_model`, which does not |
| LlmFactory.GetSupportedProviders | src/utils/llm_factory.py:330-333 | a new list holding the three supported providers in order |
| LlmFactory.FromSettings | src/utils/llm_factory.py:297-328 | a loaded settings object always names a supported provider, so it fails exactly when the chat-model class raises, with that error; otherwise the model is its provider's class around the alias-resolved model name, with its token limit, key and timeout, and the caller's callbacks gain the logging handler either way |
| LlmFactory.CreateDefaultLlm | src/utils/llm_factory.py:355-369 | the model is built from the process-wide settings, the ones kept from an earlier call if there are any, with a new callback list holding only the logging handler; settings that fail to load make it fail with the failing fields, and a chat-model class that raises makes it fail with that error |
| SqlSetup.StripCommentsNoDoubleDash | scripts/setup-supabase.py:116-117 | no "--" is left after every comment is cut up to its line end |
| SqlSetup.CountStripComments | scripts/setup-supabase.py:116-117 | removing comments never adds a character |
| SqlSetup.StatementsAreStrippedAndNonEmpty | scripts/setup-supabase.py:106-122 | every statement is non-empty and has no surrounding white space |
| SqlSetup.StatementsHaveNoSemicolonOrComment | scripts/setup-supabase.py:106-122 | no statement holds a ";" or a "--" |
| SqlSetup.StatementsKeepSourceOrder | scripts/setup-supabase.py:119-120 | the statements are the stripped pieces between semicolons, in source order, and every piece that is not blank is among them |
| SqlSetup.StatementCountBound | scripts/setup-supabase.py:106-122 | there are at most one more statements than semicolons in the script |
| SqlSetup.SqlClient.constructor | scripts/setup-supabase.py:147-158 | a new connection has run nothing yet |
| SqlSetup.ExecuteSql | scripts/setup-supabase.py:125-158 | a dry run succeeds without touching the database; otherwise the statement is sent and the result is whether the database accepted it |
| SqlSetup.ExitCode | scripts/setup-supabase.py:375-391 | the script exits with 1 exactly when some statement failed, and with 0 otherwise |
| SqlSetup.RunStatements | scripts/setup-supabase.py:339-379 | every non-blank statement is run once, in order; successes and failures add up to their number, failures are those the database refused, and the exit code follows |
| SqlSetup.SplitStatementsAreNonBlank | scripts/setup-supabase.py:348-352 | the loop skips none of the statements the splitter produced |
| SqlSetup.DryRunExitsZero | scripts/setup-supabase.py:138-142 | a dry run reports no failure and exits with 0 |
| SqlSetup.SetupCountsAddUp | scripts/setup-supabase.py:339-373 | for the script's own statements, successes and failures add up to the total it reports |

## Left out

- Orchestrator.LabelRunsDeveloperOnce: is proved about the label handler as intended, reading the stored analysis as a record; as written the handler fails on every analysed issue, which `Orchestrator.LabelEffectAsWritten` models (see "## Findings").
- AgentBase.Persona: the agent name is a field of the persona, so `Webhooks.CreateAgents` does not pin it; the code always uses the class names "ProductOwnerAgent" and "DeveloperAgent".
- Prompt wording: only the parts of a prompt that carry data are modelled (the issue, the numbered answers, the requirements and the codebase context). This covers `get_system_prompt`, `get_domain_context`, `get_tech_stack_context` and `customize_prompt`. The fixed instructions and the parser's format instructions are text with no behaviour.
- The specialised agents of the child instances: they differ only in prompt text, so the child gateways build the same agents as the main one.
- HMAC-SHA256 and hex encoding (RFC 2104, FIPS 180-4): the digest is an opaque signer. The constant-time property of `compare_digest` cannot be stated; it is modelled as equality that fails on non-ASCII text.
- JSON parsing of webhook bodies and of the backend's answers: each is an oracle that fails or yields the fields, followed by the model's validation.
- HTTP framing, FastAPI request objects and JSON responses: a delivery is its body bytes, event name and signature header, and an answer is its status code and fields.
- The delivery id: the gateway only logs it, and there is no de-duplication.
- Logging through the structured logger and the backend's callback handler (`on_llm_start` and the rest): effects on the log only.
- Clocks: `created_at`, `updated_at` and turn timestamps are not modelled. Store rows order by a counter that grows with every insert.
- Retry timing: the exponential waits between attempts are not modelled, only the number of attempts.
- Floating-point fields: `ai_temperature`, `agent_retry_delay`, `estimated_effort_hours` and `test_coverage_percentage`.
- The code-review record of a code-generation result.
- Unicode: `\d` matches ASCII digits only, and lower-casing is ASCII-only.
- Order in the store: text columns sort by code point, not by the database's collation.
- Error messages: the text of a library exception (`str(e)`) is approximated by `AgentBase.ErrorText`.
- Payload fields the handlers never read are not modelled. The decoder yields each field the handlers read as their `.get` reads it. A missing `action`, label name or comment user type is `None`, so a payload without an action is answered 200 as not handled. A missing issue, comment or pull-request body is "", and a null pull-request body is `None`.
- Payloads with a missing or null issue number, issue id, title, issue body, repository name, comment body or pull-request number, and comments whose user is null (`"comment": {"user": null}`, on which `.get("login")` raises and the gateway answers 500), are outside the model. Python passes `None` on for these; a null issue body, for one, reaches `handle_new_issue` and is rendered "None" in the prompts and the ready comment. The decoder is taken to fail on them, which the gateway answers 500 like a body that is not JSON.
- The chat-model classes (`ChatOpenAI`, `ChatAnthropic`, `ChatOllama`) are outside this code: their construction is the `LlmFactory.Constructor` parameter, which builds the model or raises an error.
- GitHub client operations no handler reaches: `get_issue`, `get_pull_request`, `create_pr_comment` and `delete_file`. The same holds for the `Issue`/`PullRequest` wrapper properties and the client factory functions.
- A file's `sha` is the service's file metadata, not computed from the content.
- Vcs.Repo.constructor: the repository lookup (`get_repo`), which can raise, is not part of the constructor; its failure is the `repo` part of the gateway's `Webhooks.Construction`, which the gateways answer 500 before any handler runs.
- Converting environment text to integers and booleans: `Settings.Environment` holds them already converted, so the load failure a non-numeric value such as `AI_MAX_TOKENS=abc` causes is not modelled.
- Store client operations no handler reaches: the generic `insert` and `update`, `get_code_generation`, and the client factory functions.
- Settings helpers that only return dictionaries of fields (`get_ai_model_config`, `get_github_config`, `get_supabase_config`). The same holds for the production-debug warning, which only warns.
- The interactive parts of the setup script: argument parsing, coloured output, reading the schema file, the connection check, and the confirmed table drop. The `exec_sql` call is a `SqlClient` that accepts or refuses each statement.
- The health endpoints and the logger module: plumbing with no lifecycle behaviour.
- Concurrency: deliveries are handled one at a time. There is no per-issue locking in the code, and none is modelled.
- LlmFactory.Build: the temperature and the extra keyword arguments passed to the chat-model classes are not modelled.
- Settings.LoadDefaults: the defaults of the floating-point fields are not stated.
- Settings.LoadFailsOnMissingRequired: states three of the failure causes; every other cause is in `Settings.Errors`, which `Settings.Load` reports.

## Findings

| source | as written | input that shows it | evidently intended | confidence | as-written member | corrected member |
|---|---|---|---|---|---|---|
| src/workflows/issue_handler.py:268-269 | the store client saves the analysis as JSON text, and `.get("refined_description", "")` on that text raises AttributeError, so the gateway answers 500 | any issue the product owner has analysed, then the "ready-for-dev" label on it | the developer runs once on the refined description and the stored acceptance criteria | not executed | Orchestrator.AnalysedIssueLabelFails | Orchestrator.LabelRunsDeveloperOnce |
