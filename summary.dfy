/** The result summariser (chains/summary_chain.py): query results are
    rendered as text, put into the summarisation prompt with the question
    and the query, and the language model's reply is the summary; a chart
    type and its columns are recommended from the shape of the results. */
module Summary {
  import opened Outcomes
  import opened Text
  import opened OrderedDict
  import opened Prompts
  import opened Database

  const NoResultsMessage := "No results found."
  const FormatErrorPrefix := "Error formatting results: "
  /** What `json.dumps` raises for a BLOB value, which SQLite hands back as
      `bytes`. */
  const BytesNotSerializable := "Object of type bytes is not JSON serializable"
  const TabularHeader := "Tabular format:\n"
  const JsonHeader := "\n\nJSON format:\n"

  /** The two renderings of non-empty results: `DataFrame.to_string` without
      the index, and `json.dumps` with an indent of two for results that
      hold no bytes. */
  datatype Renderers = Renderers(table: seq<Row> -> string, json: seq<Row> -> string)

  /** Some value in the results is a BLOB. */
  predicate HasBlob(rows: seq<Row>) {
    exists i, j | 0 <= i < |rows| && 0 <= j < |rows[i]| :: rows[i][j].1.Blob?
  }

  /** `format_results_as_string`. */
  function FormatResults(renderers: Renderers, rows: seq<Row>): (r: string)
    ensures r == NoResultsMessage <==> |rows| == 0
    ensures |rows| > 0 && HasBlob(rows) ==> r == FormatErrorPrefix + BytesNotSerializable
    ensures |rows| > 0 && !HasBlob(rows) ==>
      StartsWith(r, TabularHeader) && Contains(r, renderers.table(rows)) && Contains(r, JsonHeader + renderers.json(rows))
  {
    if |rows| == 0 then NoResultsMessage
    else if HasBlob(rows) then
      var r := FormatErrorPrefix + BytesNotSerializable;
      assert r[0] != NoResultsMessage[0];
      r
    else
      var table := renderers.table(rows);
      var json := renderers.json(rows);
      var r := TabularHeader + table + (JsonHeader + json);
      assert r[0] != NoResultsMessage[0];
      StartsWithAppend(TabularHeader, table + (JsonHeader + json));
      AppendAssoc(TabularHeader, table, JsonHeader + json);
      ContainsMiddle(TabularHeader, table, JsonHeader + json);
      ContainsAfter(TabularHeader + table, JsonHeader + json, JsonHeader + json);
      r
  }

  /** `ResultSummaryChain`: the prompt manager holding the schema text, the
      model (a function from prompt to reply, or to the error it raises) and
      the result renderers. */
  datatype ResultSummaryChain = ResultSummaryChain(promptManager: PromptManager, llm: string -> Reply, renderers: Renderers)

  /** `ResultSummaryChain.__init__`, given what `get_schema_as_string`
      returned or raised. */
  function NewResultSummaryChain(schemaText: Outcome<string>, llm: string -> Reply, renderers: Renderers): (r: Outcome<ResultSummaryChain>)
    ensures r.Raised? <==> schemaText.Raised?
    ensures r.Done? ==> r.value.promptManager.dbSchema == schemaText.value && r.value.llm == llm
  {
    match schemaText
    case Raised(m) => Raised(m)
    case Done(text) => Done(ResultSummaryChain(PromptManager(text), llm, renderers))
  }

  /** The three filled slots of a seven-piece text occur in it. */
  lemma SlotsOfSeven(a: string, b: string, c: string, d: string, e: string, f: string, g: string)
    ensures var s := a + b + c + d + e + f + g;
      Contains(s, b) && Contains(s, d) && Contains(s, f)
  {
    var s := a + b + c + d + e + f + g;
    assert s == a + b + (c + d + e + f + g);
    ContainsMiddle(a, b, c + d + e + f + g);
    assert s == a + b + c + d + (e + f + g);
    ContainsMiddle(a + b + c, d, e + f + g);
    ContainsMiddle(a + b + c + d + e, f, g);
  }

  /** The prompt `summarize_results` sends. */
  function SummaryPrompt(chain: ResultSummaryChain, question: string, sqlQuery: string, rows: seq<Row>): (r: string)
    ensures Contains(r, question) && Contains(r, sqlQuery) && Contains(r, FormatResults(chain.renderers, rows))
  {
    var results := FormatResults(chain.renderers, rows);
    var r := chain.promptManager.ResultSummarizationPrompt(question, sqlQuery, results);
    SlotsOfSeven(SummaryIntro, question, SummaryQuery, sqlQuery, SummaryResults, results, SummaryTail);
    r
  }

  /** `summarize_results` reports a failed model call through `logging`,
      which the module does not import: the handler itself raises
      `NameError`. */
  const LoggingNameError := "name 'logging' is not defined"

  /** What `summarize_results` returns. */
  datatype Summary = Summary(question: string, sqlQuery: string, summary: string)

  /** `summarize_results`: the summary is the model's reply to the
      summarisation prompt; when the model call fails, the `NameError` from
      the handler escapes instead of the intended error summary. */
  function SummarizeResults(chain: ResultSummaryChain, question: string, sqlQuery: string, rows: seq<Row>): (r: Outcome<Summary>)
    ensures var reply := chain.llm(SummaryPrompt(chain, question, sqlQuery, rows));
      && (r.Done? <==> reply.Done?)
      && (r.Done? ==> r.value == Summary(question, sqlQuery, reply.value))
      && (r.Raised? ==> r.message == LoggingNameError)
  {
    match chain.llm(SummaryPrompt(chain, question, sqlQuery, rows))
    case Raised(_) => Raised(LoggingNameError)
    case Done(content) => Done(Summary(question, sqlQuery, content))
  }

  /** The summary depends on the results only through their rendering: two
      result lists rendered alike get the same summary. */
  lemma SummaryDependsOnRendering(chain: ResultSummaryChain, question: string, sqlQuery: string, rows1: seq<Row>, rows2: seq<Row>)
    requires FormatResults(chain.renderers, rows1) == FormatResults(chain.renderers, rows2)
    ensures SummarizeResults(chain, question, sqlQuery, rows1) == SummarizeResults(chain, question, sqlQuery, rows2)
  {
  }

  /** Empty results are described to the model as "No results found.". */
  lemma EmptyResultsPrompt(chain: ResultSummaryChain, question: string, sqlQuery: string)
    ensures SummaryPrompt(chain, question, sqlQuery, [])
         == chain.promptManager.ResultSummarizationPrompt(question, sqlQuery, NoResultsMessage)
  {
  }

  datatype VizType = BarChart | Table

  /** What `generate_visualizations` recommends. */
  datatype Visualization = Visualization(recommendedVizType: VizType, vizColumns: seq<string>)

  /** `generate_visualizations`: a bar chart for one to ten rows, a table
      otherwise; the columns are the keys of the first row. */
  function GenerateVisualizations(rows: seq<Row>): (r: Visualization)
    ensures r.recommendedVizType == BarChart <==> 1 <= |rows| <= 10
    ensures |r.vizColumns| == 0 <==> |rows| == 0 || |rows[0]| == 0
  {
    Visualization(
      if 0 < |rows| <= 10 then BarChart else Table,
      if |rows| > 0 then Keys(rows[0]) else [])
  }

  /** For the rows of a query, the recommended columns are the query's
      column names in order, each once (a repeated name, as in a join that
      selects two `id` columns, appears once). */
  lemma VisualizedColumnsOfQuery(store: Store, query: string)
    requires store.execute(query).Done? && |store.execute(query).value.fetched| > 0
    ensures var c := store.execute(query).value;
      GenerateVisualizations(ExecuteQuery(store, query).0).vizColumns == Dedup(Keys(Zip(Columns(c), c.fetched[0])))
  {
    RowLookup(store, query, 0, "");
  }
}
