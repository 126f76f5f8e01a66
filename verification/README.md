# aishe-ai core, modelled in Dafny

The service connects a Slack workspace to a conversational agent. Slack sends
events to `/slack/event/`. A message that mentions the bot gets a loading
post. Then a background task runs: it turns the channel's recent history into
the agent's chat memory, runs the agent, and posts the answer with a
Good/Ok/Bad rating and a comment field. An attached file is downloaded first.
The agent then works on that file. Ratings come back through
`/slack/rating/`. One of the agent's tools answers questions about a git
repository. It returns its answer as ready-made Slack blocks, with links to
the source files it used. Multi-tenant document storage keeps one pgvector
table per (organisation, data source) pair. A member's embeddings are
gathered from the tables of the data sources they belong to.

The model covers four source files of the repository. Its Dafny files are:

- `wrappers.dfy`, `strings.dfy`, `json_values.dfy`: Option/Result, the Python
  string operations used (`endswith`, `in`, `rfind`), and JSON values with
  the subscript chain `j[k0][k1]...`.
- `constants.dfy`: the loading indicator, the custom slash commands and the
  file-extension whitelist.
- `slack_blocks.dfy`: the Block Kit layouts the application builds, their
  JSON form, and a decoder. The decoder shows that the JSON form keeps the
  whole layout.
- `slack_memory.dfy`: `slack_to_llm_memory`. A filter drops the loading and
  command messages, then a loop replays the rest oldest first into a chat
  history object that is updated in place.
- `app.dfy`: the event endpoint, the prompt and download handlers, the
  response fallback, the three-block answer layout and the rating endpoint.
  The Slack client, the task queue and the agent are external. Every call to
  them is recorded in order in the ghost `log` of a `SlackApp`. Whether a
  Slack post raised is an input. So are the agent (a function) and
  `json.loads` (a function to `Option<Json>`).
- `git_repo_tool.dfy`: the loader's file filter, the clone folder, the link
  label given by `[^/]+$`, the blob URL and the returned block list.
  `[^/]+$` is modelled as the maximal non-empty trailing run of characters
  other than `/`. That equals Python's leftmost match for every string. The
  class `[^/]` also matches a newline, so `$` before a final newline yields
  the same run.
- `data_model.dfy`: table and index naming, `create_data_source`,
  `create_document`, and the aggregation loop of `get_embeddings_for_member`.
  The SQL query is a function parameter from (SQL text, `k`) to rows.

The source of `get_embeddings_for_member` shows a different intent from what
it does. An `ORDER BY` on the distance is commented out
(`llm/vectorstores/pgvector/data_model.py:220`). The membership's
`document_uuid` is bound with a comment saying it is to be compared against
(`:227`), and `k` is bound with a comment calling it a limit of results
(`:228`). The query as written never uses `document_uuid`. It keeps the rows
whose distance is below `:k`, with no order and no limit. The result is keyed
by `document_uuid`, so a later membership overwrites an earlier one. The model
follows the code as written.

## Model

| member | source | states |
|---|---|---|
| SlackMemory.ChatMessageHistory.AddUserMessage | llm/memory/slack_memory.py:36-38 | a user message with the given text is appended after the existing messages |
| SlackMemory.ChatMessageHistory.AddAiMessage | llm/memory/slack_memory.py:33-35 | an AI message with the given text is appended after the existing messages |
| SlackMemory.NonCommandMessages | llm/memory/slack_memory.py:25-30 | a message is kept exactly when it was fetched and its text is neither the loading indicator nor a custom command; the result is never longer than the input |
| SlackMemory.SlackToLlmMemory | llm/memory/slack_memory.py:9-41 | no memory exactly on a Slack API error; otherwise a fresh chat history holding exactly the replayed conversation of the fetched messages |
| SlackMemory.NonCommandMessagesAppend | llm/memory/slack_memory.py:25-30 | the filter distributes over concatenation of message lists |
| SlackMemory.ConversationOfKept | llm/memory/slack_memory.py:25-38 | replaying only the kept messages gives the same buffer as replaying the whole history |
| SlackMemory.ConversationLength | llm/memory/slack_memory.py:25-38 | the buffer length equals the number of fetched non-command messages: each is added exactly once |
| SlackMemory.ConversationReversesKept | llm/memory/slack_memory.py:32-38 | the buffer holds the kept messages in exactly the reverse of the fetched order, each classified by `bot_id` with its text unchanged |
| SlackMemory.CommandsNeverReachBuffer | llm/memory/slack_memory.py:25-30 | no buffered message carries the loading indicator or a custom command, and every buffered message is a user or AI message |
| SlackMemory.KeptMessagesReachBuffer | llm/memory/slack_memory.py:32-38 | every fetched non-command message appears in the buffer, as AI message if it has a `bot_id` and as user message otherwise |
| SlackMemory.OldestMessageFirst | llm/memory/slack_memory.py:32 | an older message appended to the newest-first history lands at the front of the buffer |
| SlackBlocks.BlocksRoundTrip | app.py:291-334 | decoding the `blocks` argument built from any layout gives back that layout, block for block |
| JsonValues.AtAppend | app.py:90-93 | a subscript chain may be split anywhere: looking up `p + q` is looking up `p`, then `q` in the result |
| App.Extension | app.py:156 | the `os.path.splitext` extension is a suffix of the file name; it is non-empty exactly when the last path component has a dot preceded by some character other than a dot, and then it runs from the last dot and holds no other dot and no `/` |
| App.GetExamplePrompts | app.py:48-80 | the header section followed by one plain-text section per sample text, in order (four texts: the last literal is three strings joined) |
| App.WellFormedPrefix | app.py:153-155 | counts the leading files that have both keys the loop reads; the file after them lacks one |
| App.FileTasksShape | app.py:153-166 | the file loop schedules one download task per file, in file order, up to the first file missing a key, and nothing else |
| App.FileTasksStop | app.py:153-155 | a file missing `url_private_download` or `name` ends the loop: files after it add no task |
| App.EchoesPayload | app.py:109-175 | the endpoint answers with the received payload, except `null` exactly when a join event's welcome cannot be posted, and a server error exactly when a handled message's loading post raised |
| App.NothingUnlessHandled | app.py:134-149 | nothing but a welcome is posted or scheduled unless `client_msg_id` is truthy, the text contains `@` + bot id and a channel is given; a handled message always gets the loading post |
| App.LoadingBeforeTasks | app.py:145-169 | every scheduled task comes after the loading post in the log |
| App.OnePromptTaskWithoutFiles | app.py:151-169 | a handled message without `files` schedules exactly one prompt task, with the message text and channel |
| App.OneDownloadPerFile | app.py:151-166 | a handled message with `files` schedules one download task per file, in order, and no prompt task; a file missing a key stops the loop and earlier files keep their tasks |
| App.SlackApp.NewSlackEvent | app.py:105-175 | the log grows by exactly the effects of the event and the reply is the endpoint's answer |
| App.SlackApp.HandleMention | app.py:134-169 | the log grows by exactly the effects of the mention check, the loading post and the scheduling |
| App.SlackApp.ScheduleDownloads | app.py:152-166 | the log grows by one download task per file up to the first file missing a key |
| App.RenderChatHistory | app.py:251-258 | the `+=` loop yields the chat history of the messages |
| App.ChatHistoryAppend | app.py:251-258 | rendering is message by message, in buffer order |
| App.OneLinePerMessage | app.py:210-217 | with single-line contents, the history has exactly one line per user, AI or system message, and other kinds add nothing |
| App.LineHasOneNewline | app.py:212-217 | a single-line user, AI or system message renders as exactly one line; any other kind renders as nothing |
| App.StringHandlerLayout | app.py:290-340 | one post to the prompt's channel whose text is the answer and whose blocks read back as the answer section, the Good/Ok/Bad rating and the comment input |
| App.SlackApp.StringHandler | app.py:290-345 | the log grows by exactly that one post |
| App.ResponseHandlerPosts | app.py:272-287 | corrected: a reply object's `slack_response` blocks are posted; in every other case, and when that post raised something other than a Slack API error, the agent's text is posted with the three-block layout; every post goes to the prompt's channel |
| App.ResponseActionsAsWritten | app.py:272-287 | as written: the same posts as the corrected handler when parsing failed or the reply post succeeded or raised a Slack API error; otherwise the fallback posts the parsed value, not the agent's text; every post goes to the prompt's channel |
| App.FallbackPostsParsedValue | app.py:274-287 | as written, the answer "4" is posted as the JSON number 4, unlike the corrected handler |
| App.SlackApp.SlackResponseHandler | app.py:272-287 | the log grows by exactly the corrected handler's posts |
| App.SlackApp.PromptHandler | app.py:236-269 | corrected: crashes without effect unless the source is Slack and the history call succeeds; otherwise runs the agent on the rendered history and the prompt, then posts its answer through the response handler |
| App.SlackApp.DownloadHandler | app.py:178-233 | nothing unless the status is 200; then saves the file under `downloads/`, and runs the file agent with the rendered history, channel and path when the history is available, crashing otherwise |
| App.SlackRating | app.py:83-99 | a record exactly when the decoded payload has `user.id` and the selected option's text under `state.values.UBJT.radio_buttons-action`; it holds those values and the raw payload |
| App.RatingRoundTrip | app.py:83-99 | picking one of the posted rating options under block id UBJT reads back as that option's label with the payload returned unchanged; any other block id fails |
| App.SlackApp.constructor | app.py:33-36 | a fresh application with the given bot id and an empty log |
| GitRepoTool.LoadedFiles | llm/tools/git/git_repo_tool.py:29-32 | a file is loaded exactly when it is in the repository and ends with a whitelisted extension |
| GitRepoTool.AllowedExtensionsLoaded | llm/tools/git/git_repo_tool.py:31 | every file ending in a whitelisted extension is loaded, in any directory; a loaded file ends in one |
| GitRepoTool.FilterExamples | data_models/constants.py:26-80 | `.py` and `.ipynb` files are loaded, `README.md` is not |
| GitRepoTool.CloneFolder | llm/tools/git/git_repo_tool.py:25 | the clone folder is the project name under `downloads/` |
| GitRepoTool.TrailingSegmentIsMaximalRun | llm/tools/git/git_repo_tool.py:137-140 | the match is a suffix of the path, contains no `/`, and is preceded by `/` unless it is the whole path |
| GitRepoTool.TrailingSegmentAfterLastSlash | llm/tools/git/git_repo_tool.py:137-140 | the label is everything after the last `/` |
| GitRepoTool.FileNameMissingIff | llm/tools/git/git_repo_tool.py:139-140 | there is no match exactly when the path is empty or ends with `/` |
| GitRepoTool.TrailingSegmentAfterSlash | llm/tools/git/git_repo_tool.py:137-140 | whatever precedes a `/` does not change the label |
| GitRepoTool.FileNameOfPath | llm/tools/git/git_repo_tool.py:137-140 | a path `dir/name` is labelled `name` |
| GitRepoTool.LabelIsLastSegmentOfUrl | llm/tools/git/git_repo_tool.py:139-149 | the label of a link is the last path segment of the blob URL it opens |
| GitRepoTool.SourceLink | llm/tools/git/git_repo_tool.py:136-152 | fails exactly when the `source` key is missing or has no match; otherwise a section with the file name and a Link button to `url/blob/branch/source` |
| GitRepoTool.SourceLinks | llm/tools/git/git_repo_tool.py:73-78 | one link per document, in order, when all succeed; otherwise the error of the first failing document |
| GitRepoTool.GitToolBlocks | llm/tools/git/git_repo_tool.py:72-126 | links for at most the first two documents, then the answer, the rating and the comment input, so min(2, n) + 3 blocks; a failing link is the tool's error |
| GitRepoTool.ToolOutputCarriesBlocks | llm/tools/git/git_repo_tool.py:128-133 | the returned object's `slack_response` reads back as exactly the built blocks |
| DataModel.DocumentTableFactory | llm/vectorstores/pgvector/data_model.py:161-181 | table and index names carry their fixed prefixes and the same organisation/data-source pair |
| DataModel.TableNamesDistinguishPairs | llm/vectorstores/pgvector/data_model.py:164 | with underscore-free organisation names, two pairs share a table exactly when both names agree |
| DataModel.TableNamesCanCollide | llm/vectorstores/pgvector/data_model.py:164 | without that condition two different tenants can share one table |
| DataModel.CreateDataSource | llm/vectorstores/pgvector/data_model.py:81-90 | corrected: the table name is stored under the key "name"; the other maps are empty |
| DataModel.CreateDataSourceAsWritten | llm/vectorstores/pgvector/data_model.py:81-90 | as written: the table name is stored under the data source's own name; apart from that key the data source is the corrected one |
| DataModel.MetadataKeyMismatch | llm/vectorstores/pgvector/data_model.py:87 | as written, the stored table name can be read back exactly when the data source is called "name" |
| DataModel.CreatedTableNameReadsBack | llm/vectorstores/pgvector/data_model.py:208 | the corrected metadata reads back as its table name |
| DataModel.CreatedDataSourceQueried | llm/vectorstores/pgvector/data_model.py:211 | corrected: a created data source's table is queried exactly when its table name is non-empty |
| DataModel.CreateDocument | llm/vectorstores/pgvector/data_model.py:140-158 | the row belongs to the pair's table, has the given fresh uuid and the chunk's text and embedding, and no data-source uuid |
| DataModel.GetEmbeddingsForMember | llm/vectorstores/pgvector/data_model.py:194-234 | the loop returns the aggregation of the join results, or the first error |
| DataModel.ErrorPersists | llm/vectorstores/pgvector/data_model.py:206-230 | an error after some join results is the error of the whole call |
| DataModel.KeysAreQueriedDocuments | llm/vectorstores/pgvector/data_model.py:205-233 | the result keys are exactly the document uuids of memberships whose table is queried |
| DataModel.SuccessNeedsEveryTableName | llm/vectorstores/pgvector/data_model.py:208 | a successful call implies every data source has the "name" key |
| DataModel.LastMembershipWins | llm/vectorstores/pgvector/data_model.py:231 | a document uuid's entry is the rows of the last queried membership with that uuid |
| DataModel.EmptyTableSkipped | llm/vectorstores/pgvector/data_model.py:211 | a membership with an empty table name can be removed anywhere without changing the outcome |
| DataModel.SqlIgnoresDocumentUuid | llm/vectorstores/pgvector/data_model.py:218-229 | for a table name and a reference embedding text without `:`, the SQL text never refers to `:document_uuid` and ends with the `:k` threshold |

## Left out

- Network and I/O: Slack Web API calls, the file download stream, `os.makedirs`, file writes, logging and `print`. Slack calls appear only as log entries. The file write is the `SaveDownload` entry.
- FastAPI: request parsing, pydantic validation of `PromptParameters`, and background-task execution. Tasks are only scheduled; they run later as separate handler calls.
- The agents, the LLMs, the vector stores and the retrieval chain. The agent is a function parameter. The git tool's answer text and source documents are inputs.
- `json.loads`, `urllib.parse.unquote` and `json.dumps`: parsing is an `Option<Json>` input. The git tool's output is taken as the object that `json.loads` reads back.
- JSON floating-point numbers and embedding arithmetic. Embeddings are carried as `seq<real>` and never computed on. The reference embedding is passed as its already joined text.
- App.SlackApp.DownloadHandler: the agent input in download_handler is Python text that includes the repr of a dict. It is recorded as a structured `RunFileAgent` entry instead. The agent's answer is discarded, as in the source.
- App.SlackApp.PromptHandler: posts through the corrected response handler. When the agent's answer parses as JSON but is not an object with `slack_response`, or when the reply post raised an error other than a Slack API error, the source posts the parsed value, not the answer text. `App.ResponseActionsAsWritten` states what the source posts in those cases.
- App.SlackApp.StringHandler: whether its own post raised is not modelled. A Slack API error is caught there, and any other error would end the background task.
- App.SlackApp.NewSlackEvent: event fields that are not strings, and an `event` value that is not an object, are not modelled.
- SlackMemory.SlackToLlmMemory: the `limit=10` of the history call is the server's business; the reply is taken as given. History entries without a `text` key are not modelled.
- GitRepoTool: cloning, deleting the clone, the GitLoader walk, text splitting and the retriever settings. The document metadata values are strings.
- DataModel: the SQL engine, the join that selects memberships by e-mail (its result is the input list), `get_member_by_email`, `create_mock_organization` (random names) and the ORM classes' database mapping. Metadata values are strings, so the only falsy table name is "".
- The healthcheck endpoint, the other agent tools, `rbac.py`, `non_rbac.py`, `agents.py`, `config.py` and `vector_store.py`.

## Findings

| source | as written | input that shows it | evidently intended | confidence | as-written member | corrected member |
|---|---|---|---|---|---|---|
| app.py:274-287 | `response` is rebound to the parsed JSON, so the fallback posts the parsed value | agent answer `4`: the answer block and message text hold the number 4, not the string "4" | fall back to the agent's text | not executed; medium | App.FallbackPostsParsedValue | App.ResponseActions |
| llm/vectorstores/pgvector/data_model.py:87 | metadata is `{name: document_table_name}`, keyed by the data source's name, while the reader looks up `"name"` (line 208) | a data source "wiki" with table "t": collecting a member's embeddings raises KeyError | `{"name": document_table_name}` | not executed; high | DataModel.MetadataKeyMismatch | DataModel.CreateDataSource |
