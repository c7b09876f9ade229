# Smart Sales Data Chatbot, modelled in Dafny

The chatbot answers a question about a sales business in one of two ways:

- by writing and running a read-only SQL query against the SQLite sales database;
- by answering from documents retrieved out of a vector database.

The core this project models is the path a question takes:

- `App`: the chat front end's `process_question` appends the question to the chat history.
- `Router`: the router chain picks a path. A greeting short-cuts the model. Otherwise a language model replies `sql` or `rag`.
- `SqlChain`: the SQL chain asks the model for a query and extracts it from the reply. The extraction takes a fenced block if there is one, and otherwise falls back to a line scan. The query then passes a safety gate: it must be non-blank and start with `SELECT`/`WITH`, and it may not contain any of seven data-changing keywords. Only then does the query reach the database.
- `Summary`: the summariser renders the rows, then asks the model to summarise them.
- `Rag` and `Documents`: the document chain runs a two-node graph (retrieve, then answer) over a document processor. The processor caches its vector database. The graph goes round again while the state holds neither an answer nor an error. The vector search and the chain's model are asked afresh in every round, so each is an oracle that also takes the number of the call (`Rag.Model`, `Documents.DocumentEnvironment`). `Rag.RagMemory` is what one question leaves for the next: the cached database and both call counts.
- `Database`: the database utilities run queries and read the schema, then render the schema as the text that goes into the SQL prompt.
- `Prompts`: the prompt manager fills the prompt templates.

The language models, the SQLite connection, the file system, the embedding service and the vector store are all outside the model. Each one is a value: a total function, or a record of functions. That value returns what the call returns, or `Raised(message)` for the exception it throws (`Outcomes.Outcome`). A property that holds "whatever the model says" is stated for every such function. "The model is not asked" is stated as "the result does not depend on the function".

Modules follow the source files:

| module | file |
|---|---|
| `Outcomes` | shared result types |
| `Text` | Python `str` operations on ASCII |
| `OrderedDict` | Python's insertion-ordered `dict` |
| `Prompts` | `utils/prompt_utils.py` |
| `Database` | `utils/db_utils.py` |
| `Documents` | `utils/document_utils.py` |
| `SqlChain` | `chains/sql_chain.py` |
| `Router` | `chains/router_chain.py` |
| `Summary` | `chains/summary_chain.py` |
| `Rag` | `chains/rag_chain.py` |
| `App` | `app.py`, `process_question` |

The modelling follows the form of the code:

- State-changing code is a class. `Documents.DocumentProcessor` caches the vector database. `Rag.RagChain` runs the graph loop. `App.ChatSession` holds the chat history.
- Loops are methods with invariants, proved equal to a specification function. This covers the extraction scan, the keyword check, the table and foreign-key loops, the schema rendering and the graph run.
- Pure code is functions and lemmas.

Behaviour of the code that the model keeps, as written:

- **Greetings are shown as routing errors.** `route_question` returns the guidance text for a greeting in the `error` field. The front end shows every routing error as `Error routing question: <error>`, so a greeting is answered with that prefix (`App.GreetingShownAsRoutingError`).
- **A failed router call carries the prefix twice.** The router already prefixes a failed call with `Error routing question: `, and the front end adds it again (`App.FailedRoutingPrefixedTwice`).
- **A failed summary raises instead of being reported.** `summarize_results` handles a failed model call by calling `logging.error`. `chains/summary_chain.py` never imports `logging`, so the handler raises `NameError`. The intended "Error generating summary" text never comes back, and the exception escapes the front end after the user's turn was appended. (`Summary.SummarizeResults`, `App.ChatSession.ProcessQuestion`).
- **An empty reply from the document model sends the graph back to retrieval.** An empty reply leaves both `answer` and `error` empty, so `_should_end` is false. The graph then retrieves again and asks the model again. Every retrieval and every model call is a fresh call, so a later round can end differently: with no documents, with a failure or with a non-empty reply. The run ends at the first round that is not empty (`Rag.RunEndsAtFirstAnswer`). LangGraph stops it at its recursion limit of 25 steps only when all twelve rounds that fit are empty. The user then sees `Error: Error processing question: Recursion limit of 25 reached …` (`Rag.LimitIff`). A search and a model that answer the same way every time make one empty round enough to reach the limit (`Rag.SteadyEmptyReplyHitsLimit`).
- **The keyword gate does not know every writing statement.** `REPLACE` is not in the keyword list, so `WITH x AS (SELECT 1) REPLACE INTO t SELECT * FROM x` starts with `WITH`, contains no listed keyword and passes the gate (`SqlChain.ValidIff`).
- **A store error is shown without a summary.** A query that passes the gate but fails in SQLite comes back with the error text. The front end shows `Error: <text>` and does not ask the summariser (`App.StoreErrorReported`). An empty error text is falsy, so then the summariser is asked about no rows (`App.EmptyStoreErrorSummarized`).
- **A database that fails to persist is still cached.** `process_documents` stores the new vector database before calling `persist()`. A failed persist makes `get_vector_db` return `None` once, but every later call returns the cached database (`Documents.PersistFailureCachesAnyway`).
- **The keyword gate matches inside identifiers.** It tests `keyword in query.upper()`, so a column such as `created_at` or `last_update` rejects a harmless query (`SqlChain.ValidIff`).
- **A BLOB makes result rendering fail.** `json.dumps` cannot serialise `bytes`. Rows holding a BLOB are therefore described to the summariser as `Error formatting results: …` (`Summary.FormatResults`).

## Model

| member | source | states |
|---|---|---|
| `Text.Strip` | chains/sql_chain.py:68 | `str.strip()` leaves no whitespace at either end and never lengthens the text |
| `Text.StripMiddle` | chains/sql_chain.py:68 | `str.strip()` is the slice of the text left once only whitespace is cut from either end |
| `Text.StripEmpty` | chains/sql_chain.py:105 | a text strips to the empty string exactly when it is all whitespace |
| `Text.Split` | chains/sql_chain.py:63 | `split('\n')` gives at least one piece and no piece holds the separator |
| `Text.JoinSplit` | chains/sql_chain.py:63 | joining the split pieces with the separator gives the text back |
| `Text.IndexOf` | chains/sql_chain.py:115 | the first occurrence at or after the start, and none before it; `None` only when there is none |
| `OrderedDict.Find` | utils/db_utils.py:175 | a key is found at its first position, and not found exactly when it is absent |
| `OrderedDict.SetKeys` | utils/db_utils.py:175-178 | `d[k] = v` keeps keys distinct; a new key is appended, an old one keeps its place |
| `OrderedDict.SetGet` | utils/db_utils.py:175-178 | after `d[k] = v`, `k` maps to `v` and every other key keeps its value |
| `OrderedDict.FromPairsProperties` | utils/db_utils.py:52 | `dict(pairs)` has each key once in order of first occurrence and maps it to the value of its last pair |
| `Prompts.Format` | utils/prompt_utils.py:70 | formatting succeeds exactly when every placeholder has a value |
| `Prompts.ParseLiteral` | chains/sql_chain.py:41 | text without braces parses to one literal piece |
| `Prompts.ParseFieldBetween` | chains/sql_chain.py:41 | text with one `{name}` field between brace-free literals parses to literal, placeholder, literal |
| `Prompts.SqlTemplateTextHasNoBraces` | utils/prompt_utils.py:8-20 | the SQL template's literal text holds no braces, so only `{schema}` and `{question}` are placeholders |
| `Prompts.PromptManager.SqlGenerationPrompt` | utils/prompt_utils.py:60-70 | the SQL template with the stored schema and the question in their slots, ending in an open `sql` fence |
| `Prompts.PromptManager.ResultSummarizationPrompt` | utils/prompt_utils.py:72-88 | the summary template with question, query and results in their slots |
| `Prompts.ChainTemplateKeepsQuestionSlot` | chains/sql_chain.py:39-42 | with a brace-free schema, the template parsed from the prompt for `{question}` has the question as its only placeholder, and formatting it gives exactly `get_sql_generation_prompt(question)` |
| `Database.Zip` | utils/db_utils.py:52 | `zip` pairs elements up to the shorter input |
| `Database.ExecuteQuery` | utils/db_utils.py:32-59 | one row per fetched row and no error, or no rows and the database error |
| `Database.RowLookup` | utils/db_utils.py:51-52 | in a result row a column name maps to the last value under that name; the keys are the column names deduplicated in order |
| `Database.RowOfDistinctColumns` | utils/db_utils.py:51-52 | with distinct column names and a full row, the j-th column maps to the j-th value |
| `Database.ColumnInfo` | utils/db_utils.py:104-109 | primary key exactly when `pk` is non-zero, nullable exactly when `notnull` is zero |
| `Database.GetTableSchema` | utils/db_utils.py:83-116 | one column record per `table_info` row, in order, or no columns and the error |
| `Database.GetForeignKeys` | utils/db_utils.py:134-159 | one record per `foreign_key_list` row, mapping `from`, `table`, `to`; an error escapes |
| `Database.SchemaOfRaised` | utils/db_utils.py:171-173 | once a foreign-key lookup raises, the later tables do not change the outcome |
| `Database.SchemaBuiltIff` | utils/db_utils.py:161-180 | the schema is built exactly when every table's foreign-key lookup succeeds |
| `Database.SchemaIsDict` | utils/db_utils.py:168-180 | the schema loop builds `dict` of (table, entry) pairs |
| `Database.SchemaContents` | utils/db_utils.py:161-180 | every table appears once, in first-listed order, with its columns and foreign keys |
| `Database.GetDatabaseSchema` | utils/db_utils.py:161-180 | the loop's result equals the schema specification, including the escaping error |
| `Database.RenderTableBlock` | utils/db_utils.py:193-206 | a table block is its name line, the column lines, the foreign-key section, then a blank line |
| `Database.RenderSchemaText` | utils/db_utils.py:190-208 | the header followed by every table's block in schema order |
| `Database.RenderedSchemaHasEveryTable` | utils/db_utils.py:190-206 | the rendered schema starts with the header and contains every table's whole block |
| `Database.ForeignKeySectionPresence` | utils/db_utils.py:201-204 | the foreign-key section is present exactly when the table has keys |
| `Database.GetSchemaAsString` | utils/db_utils.py:182-208 | the rendered schema, or the error that escaped while reading it |
| `Documents.Loaded` | utils/document_utils.py:40-73 | a loading error gives no documents |
| `Documents.Processing` | utils/document_utils.py:75-109 | success exactly when there are documents and splitting, building and persisting all succeed; the cache changes only to the newly built database; success leaves a database cached |
| `Documents.Acquire` | utils/document_utils.py:111-139 | a cached database is returned as is; a returned database is the cached one |
| `Documents.AcquireIdempotent` | utils/document_utils.py:118-120 | once a database is returned, later calls return it again without the disk, loader or embeddings |
| `Documents.PersistFailureCachesAnyway` | utils/document_utils.py:95-109 | a failed persist returns `None` but caches the database, so the next call returns it |
| `Documents.Retrieval` | utils/document_utils.py:141-168 | never raises; without a database no documents; with one, the documents of that call's search, or none when it raises; the cache afterwards is that of `get_vector_db` |
| `Documents.RetrievalKeepsDatabase` | utils/document_utils.py:111-168 | after a retrieval that found documents, the next retrieval searches the same cached database, whatever that search then returns |
| `Documents.DocumentProcessor.constructor` | utils/document_utils.py:18-38 | a new processor has no cached database |
| `Documents.DocumentProcessor.ProcessDocuments` | utils/document_utils.py:75-109 | result and new cache equal `Processing` of the old cache |
| `Documents.DocumentProcessor.GetVectorDb` | utils/document_utils.py:111-139 | result and new cache equal `Acquire` of the old cache |
| `Documents.DocumentProcessor.RetrieveDocuments` | utils/document_utils.py:141-168 | result and new cache equal `Retrieval` of the old cache, as the processor's next retrieval; the retrieval count goes up by one |
| `Documents.DocumentContent` | utils/document_utils.py:170-184 | a fixed message for no documents, a single document's text as is |
| `Documents.DocumentContentHasEach` | utils/document_utils.py:183 | every document's text occurs in the context |
| `SqlChain.FencedBlock` | chains/sql_chain.py:54-59 | the extracted block has no surrounding whitespace |
| `SqlChain.FencedBlockFound` | chains/sql_chain.py:55-59 | a block is found exactly when an opening tag has a closing fence after it |
| `SqlChain.FencedBlockIgnoresPadding` | chains/sql_chain.py:55-59 | whitespace the pattern absorbs around the group does not change the block |
| `SqlChain.ExtractSqlQuery` | chains/sql_chain.py:44-90 | the loop returns the fenced block, else the captured lines joined, else the response |
| `SqlChain.NonBlank` | chains/sql_chain.py:67-72 | the kept lines are non-empty and stripped |
| `SqlChain.FromFirstStart` | chains/sql_chain.py:74-77 | a suffix starting at the first `SELECT`/`WITH` line, with no start line before it |
| `SqlChain.ThroughSemicolon` | chains/sql_chain.py:82-84 | a prefix ending at the first line ending in `;`, or the whole list |
| `SqlChain.CaptureWhileCapturing` | chains/sql_chain.py:79-84 | once capturing, the scan keeps the non-blank lines through the first `;` |
| `SqlChain.CaptureIsFromStartThroughSemicolon` | chains/sql_chain.py:63-87 | the scan captures the non-blank lines from the first start line through the first `;` |
| `SqlChain.FirstDangerous` | chains/sql_chain.py:113-116 | the first keyword in list order that occurs, none before it; none only when no keyword occurs |
| `SqlChain.FindKeyword` | chains/sql_chain.py:114-116 | the loop finds exactly the first keyword that occurs |
| `SqlChain.ValidIff` | chains/sql_chain.py:92-118 | a query passes exactly when it is not blank, starts with `SELECT`/`WITH` and contains no keyword |
| `SqlChain.RejectionReasons` | chains/sql_chain.py:104-116 | blank, not-`SELECT` and dangerous-keyword rejections, in that order, with their messages |
| `SqlChain.ValidateSqlQuery` | chains/sql_chain.py:92-118 | the flag is true exactly when there is no error, and the error is the validation verdict |
| `SqlChain.RejectionsAreTruthy` | chains/sql_chain.py:104-116 | every rejection reason is a non-empty text |
| `SqlChain.NewSqlGenerationChain` | chains/sql_chain.py:18-42 | a schema error escapes; a built chain holds the template parsed from the prompt for `{question}` |
| `SqlChain.ChainPromptIsSqlGenerationPrompt` | chains/sql_chain.py:39-42 | with a brace-free schema the chain is built and sends `get_sql_generation_prompt(question)` |
| `SqlChain.GenerateSql` | chains/sql_chain.py:120-149 | the result's flag and error are the validation verdict of the extracted query |
| `SqlChain.ExecuteSql` | chains/sql_chain.py:151-178 | a query failing validation gets its reason and no rows; no error means the query passed |
| `SqlChain.InvalidQueryNeverExecuted` | chains/sql_chain.py:163-170 | a query failing validation never reaches the database |
| `SqlChain.ProcessQuestion` | chains/sql_chain.py:180-213 | without an error the query passed validation and the rows are the database's; with an error there are no rows |
| `SqlChain.AnswerForReply` | chains/sql_chain.py:180-213 | for a model reply, the answer is the extracted query with the database's rows when valid, or its rejection, independent of the database |
| `Router.RouterPrompt` | chains/router_chain.py:74 | the router template with the question in its slot |
| `Router.Decision` | chains/router_chain.py:77-85 | `sql` or `rag` exactly when the stripped, lower-cased reply is that word |
| `Router.RouteNode` | chains/router_chain.py:60-90 | a failed call gives `unknown` and an error with the routing prefix |
| `Router.RouteQuestion` | chains/router_chain.py:113-160 | the question is echoed, and a non-empty error always comes with route `unknown` |
| `Router.GreetingNeedsNoModel` | chains/router_chain.py:126-133 | a greeting gets the guidance message whatever the model would say |
| `Router.RouteOfReply` | chains/router_chain.py:135-150 | any other question is routed by the model's reply, with no error |
| `Router.RouteOfFailure` | chains/router_chain.py:87-90 | a failed model call gives `unknown` and the prefixed message |
| `Router.GreetingExamples` | chains/router_chain.py:127-128 | greetings match in any case and before a space, but only as whole words |
| `Summary.FormatResults` | chains/summary_chain.py:39-61 | the no-results message exactly for no rows; the serialisation error for a BLOB; otherwise both renderings under their headers |
| `Summary.NewResultSummaryChain` | chains/summary_chain.py:19-37 | a schema error escapes; otherwise the prompt manager holds the schema text |
| `Summary.SummaryPrompt` | chains/summary_chain.py:78-86 | the prompt contains the question, the query and the rendered results |
| `Summary.SummarizeResults` | chains/summary_chain.py:63-101 | the summary is the model's reply; a failed call raises `NameError` |
| `Summary.SummaryDependsOnRendering` | chains/summary_chain.py:78-101 | results rendered alike are summarised alike |
| `Summary.EmptyResultsPrompt` | chains/summary_chain.py:49-50 | empty results are described to the model as "No results found." |
| `Summary.GenerateVisualizations` | chains/summary_chain.py:103-118 | a bar chart exactly for one to ten rows; no columns exactly for no rows or an empty first row |
| `Summary.VisualizedColumnsOfQuery` | chains/summary_chain.py:117 | the recommended columns are the query's column names, deduplicated in order |
| `Rag.RagPromptFormats` | chains/rag_chain.py:54-99 | formatting the parsed template with question and context gives the template text with both in their slots |
| `Rag.GenerateNode` | chains/rag_chain.py:78-107 | no documents gives the no-information answer; a failed call gives the failure answer and a prefixed error |
| `Rag.Round` | chains/rag_chain.py:57-150 | a round, retrieval then answer, echoes the question |
| `Rag.Answer` | chains/rag_chain.py:78-150 | the answer node and the conditional edge echo the question |
| `Rag.RagRun` | chains/rag_chain.py:152-191 | the graph run from its initial state echoes the question |
| `Rag.RoundMemory` | chains/rag_chain.py:69-100 | after `i` empty rounds the processor has served `i` more retrievals and the model `i` more calls |
| `Rag.RunReachesRound` | chains/rag_chain.py:109-150 | after `k` empty rounds the run is round `k` from the memory those rounds leave |
| `Rag.RunEndsAtFirstAnswer` | chains/rag_chain.py:78-150 | the run ends at the first round that is not empty: the no-information answer without documents, the failure answer for a failed call, else the non-empty reply |
| `Rag.RoundEndsRun` | chains/rag_chain.py:109-120 | a round that is not empty ends the run with its answer, which is never empty |
| `Rag.FirstAnswerRound` | chains/rag_chain.py:109-150 | when some round is not empty, there is a first such round |
| `Rag.RoundAnswerNotLimit` | chains/rag_chain.py:183-191 | a round's own answer is never the recursion-limit answer |
| `Rag.LimitIff` | chains/rag_chain.py:109-191 | the run ends with the recursion-limit error exactly when every round that fits finds documents and gets an empty reply |
| `Rag.AnswerNeverEmpty` | chains/rag_chain.py:152-191 | the answer is never empty |
| `Rag.NoDocumentsNoModel` | chains/rag_chain.py:92-93 | without documents the model is not asked and no error is reported |
| `Rag.RoundCache` | chains/rag_chain.py:57-71 | a round leaves the cache that its first retrieval leaves |
| `Rag.RunCache` | chains/rag_chain.py:152-191 | the cache afterwards is that of the run's first retrieval |
| `Rag.SteadyEmptyReplyHitsLimit` | chains/rag_chain.py:109-191 | when search and model answer alike on every call, one empty round leads to the recursion-limit error |
| `Rag.RagChain.constructor` | chains/rag_chain.py:43-55 | the chain holds its processor, model and the parsed prompt, and has made no calls |
| `Rag.RagChain.RetrieveNode` | chains/rag_chain.py:57-76 | the node's documents and the processor's new cache are the processor's next `Retrieval` |
| `Rag.RagChain.AnswerNode` | chains/rag_chain.py:78-107 | the node's update is `GenerateNode` for the chain's next call; the call count grows only when the model is asked |
| `Rag.RagChain.RunRound` | chains/rag_chain.py:122-150 | one retrieve/answer round either ends with the run's result or hands the run on to the next round |
| `Rag.RagChain.ProcessQuestion` | chains/rag_chain.py:152-191 | the node-by-node graph run equals `RagRun`, including the processor's new cache and both call counts |
| `App.Respond` | app.py:152-219 | only the SQL path can raise, and only the document path changes the cache |
| `App.RoutingErrorsComeFirst` | app.py:163-167 | a routing error is shown prefixed before any other chain is asked |
| `App.GreetingShownAsRoutingError` | app.py:164-167 | a greeting is answered with the routing prefix and the guidance message |
| `App.FailedRoutingPrefixedTwice` | app.py:165 | a failed router call is shown with the routing prefix twice |
| `App.StoreErrorReported` | app.py:172-178 | a valid query that the database rejects with a non-empty error is shown as `Error: <error>`, whatever the summariser would say |
| `App.EmptyStoreErrorSummarized` | app.py:172-193 | a database error with empty text is falsy: the summariser is asked about no rows and its answer is shown |
| `App.RejectedQueryReported` | app.py:172-178 | a query failing validation is shown as `Error: <reason>`, with no database or summary |
| `App.SqlResponseOrigin` | app.py:170-193 | a SQL response comes from the SQL route and an error-free answer, with its query, rows and summary |
| `App.SqlResponseShowsValidatedQuery` | app.py:170-193 | a SQL response shows a validated query and exactly the database's rows for it |
| `App.SqlResponseShowsSummary` | app.py:181-193 | the summary shown is the summariser model's reply to the prompt with question, query and rows |
| `App.RagReply` | app.py:195-210 | the document answer is shown, or its error prefixed; a shown answer is never empty |
| `App.UnknownRouteReply` | app.py:212-216 | an unrouted question gets the rephrasing hint |
| `App.ChatSession.constructor` | app.py:121-149 | the session holds its history and chains |
| `App.ChatSession.ProcessQuestion` | app.py:152-219 | the user turn is appended, then the reply unless an exception escaped; the processor cache follows `Respond` |

## Left out

- Language models, SQLite, the file system, embeddings and the vector store are oracles (total functions). Their internals, network calls, retries and the model names and temperatures are not modelled.
- Character handling is ASCII only. `strip`, `upper`, `lower` and the regular expression's `\s` are modelled on ASCII characters; Unicode case mapping and Unicode whitespace are not.
- `Router.RouterPrompt`, `Rag.RagPrompt`, `Prompts.PromptManager`: their templates are given already parsed (the prompt manager parses the SQL and summary templates at utils/prompt_utils.py:57-58), since `from_template` on them is not re-derived. Only the SQL chain's template parse is proved (`Prompts.ChainTemplateKeepsQuestionSlot`).
- `SqlChain.NewSqlGenerationChain`: LangChain's exact error texts for a bad template or a missing input are not modelled; fixed messages stand in for them.
- `Rag.RagRun`: LangGraph's step accounting is modelled only as far as this two-node graph needs. The run stops after at most 25 node runs (`MaxRounds` full rounds and one more retrieval), with LangGraph's recursion-limit message.
- `Rag.RecursionLimitMessage` is the text of one LangGraph version; newer versions append a troubleshooting link to it.
- Only the vector search and the document model are oracles indexed by call. Loading, splitting, building and opening the vector database give the same outcome on every call, and the router and SQL models are asked once per question.
- `Database.ExecuteQuery`: `cursor.execute` is modelled as returning or raising `sqlite3.Error`. On Python 3.11 and earlier, a query text with two statements raises `sqlite3.Warning`, which is not a `sqlite3.Error`. That escapes the handler at utils/db_utils.py:57, and then the front end, and is not modelled.
- The retrieval error branch of `_retrieve_documents` (chains/rag_chain.py:73-76) is not modelled: `retrieve_documents` catches its own errors and never raises.
- The outer `except` of `route_question` (chains/router_chain.py:152-160) is not modelled: the single node catches every model error, so the graph run does not raise.
- `Documents.Loaded`: the directory loader, the `.txt` loader table and multithreaded loading are an oracle. So are the text splitter's chunk size and overlap.
- `Summary.FormatResults`: pandas' `to_string` and the text of `json.dumps` are oracles (`Renderers`); only the BLOB failure of `json.dumps` is modelled.
- `App.ChatSession`: the router, SQL and summary chains are held as the functions they compute (`App.Chains`), not as objects. The document chain's `answer` is tied to the session's `Rag.RagChain` by `App.ChatSession.Valid`.
- Logging, the Streamlit spinner and page rendering, and the sample-data sidebar are I/O and are not modelled.
- `execute_query_to_df`, `get_sample_data` and `get_connection` (utils/db_utils.py) are not part of this model: the question path does not use them. `get_connection` only opens the file and sets the row factory, which the `Store` oracle subsumes.
- Database values are not interpreted: `REAL` values are kept as their literal text.
