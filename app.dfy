/** The chat front end's question handler (app.py, `process_question`): the
    question joins the chat history, is routed, and is answered by the SQL
    chain and the summariser or by the retrieval-augmented chain; the reply
    joins the history in turn. */
module App {
  import opened Outcomes
  import opened Text
  import opened Database
  import opened Documents
  import opened Router
  import opened SqlChain
  import opened Summary
  import opened Rag

  datatype Role = User | Assistant

  /** What a chat turn shows: plain text, or the structured response of
      the SQL or the document path. */
  datatype Content =
    | Message(text: string)
    | SqlResponse(summary: string, sqlQuery: string, results: seq<Row>)
    | RagResponse(summary: string, documents: string)

  datatype Turn = Turn(role: Role, content: Content)

  const ErrorPrefix := "Error: "
  const UnknownRouteMessage := "Could not determine how to process your question. Please try rephrasing it."
  const KnowledgeBaseNote := "Retrieved from document knowledge base"

  /** The chains of a session, each as the function it computes:
      - `route`: the router's `route_question`;
      - `sql`: the SQL chain's `process_question`;
      - `summarize`: the summariser's `summarize_results`;
      - `answer`: the document chain's `process_question`, from what
        earlier runs left behind (`RagMemory`) to the answer and what this
        run leaves. */
  datatype Chains = Chains(
    route: string -> Routing,
    sql: string -> Outcome<SqlAnswer>,
    summarize: (string, string, seq<Row>) -> Outcome<Summary>,
    answer: (RagMemory, string) -> (RagAnswer, RagMemory))

  /** The chains are the ones built from a router model, an SQL chain, a
      summariser, and a document environment and model. */
  ghost predicate RoutedBy(chains: Chains, routerLlm: string -> Reply) {
    forall q :: chains.route(q) == RouteQuestion(routerLlm, q)
  }

  ghost predicate QueriedBy(chains: Chains, sqlChain: SqlGenerationChain) {
    forall q :: chains.sql(q) == SqlChain.ProcessQuestion(sqlChain, q)
  }

  ghost predicate SummarizedBy(chains: Chains, summaryChain: ResultSummaryChain) {
    forall q, s, rows :: chains.summarize(q, s, rows) == SummarizeResults(summaryChain, q, s, rows)
  }

  ghost predicate AnsweredBy(chains: Chains, env: DocumentEnvironment, ragLlm: Model, prompt: Prompt) {
    forall mem, q :: chains.answer(mem, q) == RagRun(env, ragLlm, prompt, mem, q)
  }

  /** The assistant's reply to `question` — or the exception that escapes
      instead — and the document chain's memory afterwards, from memory
      `mem`. Only the SQL path can raise, and only the document path
      touches the memory. */
  function Respond(chains: Chains, mem: RagMemory, question: string): (r: (Outcome<Content>, RagMemory))
    ensures r.0.Raised? ==> chains.route(question).route == Sql && chains.route(question).error == ""
    ensures r.1 != mem ==> chains.route(question).route == Rag && chains.route(question).error == ""
  {
    var routing := chains.route(question);
    if routing.error != "" then (Done(Message(RoutingErrorPrefix + routing.error)), mem)
    else
      match routing.route
      case Sql =>
        (match chains.sql(question)
         case Raised(m) => Raised(m)
         case Done(answer) =>
           if Truthy(answer.error) then Done(Message(ErrorPrefix + answer.error.value))
           else
             match chains.summarize(question, answer.sqlQuery, answer.results)
             case Raised(m) => Raised(m)
             case Done(summary) => Done(SqlResponse(summary.summary, answer.sqlQuery, answer.results)),
         mem)
      case Rag =>
        var (answer, after) := chains.answer(mem, question);
        if answer.error != "" then (Done(Message(ErrorPrefix + answer.error)), after)
        else (Done(RagResponse(answer.answer, KnowledgeBaseNote)), after)
      case Unknown => (Done(Message(UnknownRouteMessage)), mem)
  }

  /** A routing error is shown, prefixed once more, before any other chain
      is asked: the reply does not depend on them. */
  lemma RoutingErrorsComeFirst(chains: Chains, other: Chains, mem: RagMemory, question: string)
    requires chains.route(question).error != "" && other.route == chains.route
    ensures Respond(chains, mem, question) == (Done(Message(RoutingErrorPrefix + chains.route(question).error)), mem)
    ensures Respond(other, mem, question) == Respond(chains, mem, question)
  {
  }

  /** A greeting's guidance is shown as a routing error. */
  lemma GreetingShownAsRoutingError(chains: Chains, routerLlm: string -> Reply, mem: RagMemory, question: string)
    requires RoutedBy(chains, routerLlm) && IsGreeting(question)
    ensures Respond(chains, mem, question) == (Done(Message(RoutingErrorPrefix + GuidanceMessage)), mem)
  {
    GreetingNeedsNoModel(routerLlm, routerLlm, question);
    assert chains.route(question).error == GuidanceMessage;
    assert GuidanceMessage != "" by { assert |GuidanceMessage| > 0; }
  }

  /** A failed router call is shown with "Error routing question: " twice. */
  lemma FailedRoutingPrefixedTwice(chains: Chains, routerLlm: string -> Reply, mem: RagMemory, question: string, message: string)
    requires RoutedBy(chains, routerLlm)
    requires !IsGreeting(question) && routerLlm(RouterPrompt(question)) == Raised(message)
    ensures Respond(chains, mem, question) == (Done(Message(RoutingErrorPrefix + (RoutingErrorPrefix + message))), mem)
  {
    RouteOfFailure(routerLlm, question, message);
    assert chains.route(question).error == RoutingErrorPrefix + message;
    assert RoutingErrorPrefix + message != "" by { assert |RoutingErrorPrefix + message| > 0; }
  }

  /** On the SQL path, a query that fails validation is shown as an error,
      and neither the database nor the summariser is consulted. */
  lemma RejectedQueryReported(chains: Chains, sqlChain: SqlGenerationChain, mem: RagMemory, question: string)
    requires QueriedBy(chains, sqlChain) && chains.route(question) == Routing(question, Sql, "")
    requires SqlChain.GenerateSql(sqlChain, question).Done?
    requires Validate(SqlChain.GenerateSql(sqlChain, question).value.sqlQuery).Some?
    ensures Respond(chains, mem, question)
         == (Done(Message(ErrorPrefix + Validate(SqlChain.GenerateSql(sqlChain, question).value.sqlQuery).value)), mem)
  {
    var g := SqlChain.GenerateSql(sqlChain, question).value;
    RejectionsAreTruthy(g.sqlQuery);
  }

  /** On the SQL path, a database error on a query that passed validation
      is shown prefixed as an error, and the summariser is not consulted. */
  lemma StoreErrorReported(chains: Chains, other: Chains, sqlChain: SqlGenerationChain, mem: RagMemory, question: string, m: string)
    requires QueriedBy(chains, sqlChain) && chains.route(question) == Routing(question, Sql, "")
    requires SqlChain.GenerateSql(sqlChain, question).Done?
    requires Validate(SqlChain.GenerateSql(sqlChain, question).value.sqlQuery).None?
    requires sqlChain.store.execute(SqlChain.GenerateSql(sqlChain, question).value.sqlQuery) == Raised(m) && m != ""
    requires other == chains.(summarize := other.summarize)
    ensures Respond(chains, mem, question) == (Done(Message(ErrorPrefix + m)), mem)
    ensures Respond(other, mem, question) == Respond(chains, mem, question)
  {
    var g := SqlChain.GenerateSql(sqlChain, question).value;
    assert chains.sql(question) == Done(SqlAnswer(question, g.sqlQuery, [], Some(m)));
  }

  /** A database error with an empty message is not truthy: the empty
      result goes on to the summariser as though the query had returned no
      rows. */
  lemma EmptyStoreErrorSummarized(chains: Chains, sqlChain: SqlGenerationChain, mem: RagMemory, question: string)
    requires QueriedBy(chains, sqlChain) && chains.route(question) == Routing(question, Sql, "")
    requires SqlChain.GenerateSql(sqlChain, question).Done?
    requires Validate(SqlChain.GenerateSql(sqlChain, question).value.sqlQuery).None?
    requires sqlChain.store.execute(SqlChain.GenerateSql(sqlChain, question).value.sqlQuery) == Raised("")
    ensures var query := SqlChain.GenerateSql(sqlChain, question).value.sqlQuery;
      var summary := chains.summarize(question, query, []);
      Respond(chains, mem, question) ==
        (if summary.Raised? then Raised(summary.message) else Done(SqlResponse(summary.value.summary, query, [])), mem)
  {
    var g := SqlChain.GenerateSql(sqlChain, question).value;
    assert chains.sql(question) == Done(SqlAnswer(question, g.sqlQuery, [], Some("")));
  }

  /** A structured SQL response comes only from the SQL route, from an
      answer without an error, and shows that answer's query and rows with
      the summariser's summary of them. */
  lemma SqlResponseOrigin(chains: Chains, mem: RagMemory, question: string)
    requires Respond(chains, mem, question).0.Done? && Respond(chains, mem, question).0.value.SqlResponse?
    ensures chains.route(question).route == Sql && chains.route(question).error == ""
    ensures chains.sql(question).Done? && !Truthy(chains.sql(question).value.error)
    ensures var answer := chains.sql(question).value;
      var summary := chains.summarize(question, answer.sqlQuery, answer.results);
      summary.Done? && Respond(chains, mem, question).0.value == SqlResponse(summary.value.summary, answer.sqlQuery, answer.results)
  {
  }

  /** A structured SQL response always shows a query that passed
      validation, with the rows the database returned for it. */
  lemma SqlResponseShowsValidatedQuery(chains: Chains, sqlChain: SqlGenerationChain, mem: RagMemory, question: string)
    requires QueriedBy(chains, sqlChain)
    requires Respond(chains, mem, question).0.Done? && Respond(chains, mem, question).0.value.SqlResponse?
    ensures var response := Respond(chains, mem, question).0.value;
      Validate(response.sqlQuery).None? && response.results == ExecuteQuery(sqlChain.store, response.sqlQuery).0
  {
    SqlResponseOrigin(chains, mem, question);
    assert chains.sql(question) == SqlChain.ProcessQuestion(sqlChain, question);
  }

  /** The summary shown is the summariser's model's reply to the prompt
      holding the question, the query and the rendered rows. */
  lemma SqlResponseShowsSummary(chains: Chains, summaryChain: ResultSummaryChain, mem: RagMemory, question: string)
    requires SummarizedBy(chains, summaryChain)
    requires Respond(chains, mem, question).0.Done? && Respond(chains, mem, question).0.value.SqlResponse?
    ensures var response := Respond(chains, mem, question).0.value;
      summaryChain.llm(SummaryPrompt(summaryChain, question, response.sqlQuery, response.results)) == Done(response.summary)
  {
    SqlResponseOrigin(chains, mem, question);
    var answer := chains.sql(question).value;
    assert chains.summarize(question, answer.sqlQuery, answer.results)
        == SummarizeResults(summaryChain, question, answer.sqlQuery, answer.results);
  }

  /** On the document path, the chain's answer is shown unless it reports
      an error, which is shown prefixed; the answer shown is never empty. */
  lemma RagReply(chains: Chains, env: DocumentEnvironment, ragLlm: Model, prompt: Prompt, mem: RagMemory, question: string)
    requires AnsweredBy(chains, env, ragLlm, prompt)
    requires chains.route(question).route == Rag && chains.route(question).error == ""
    ensures var (answer, after) := RagRun(env, ragLlm, prompt, mem, question);
      Respond(chains, mem, question) ==
        if answer.error != "" then (Done(Message(ErrorPrefix + answer.error)), after)
        else (Done(RagResponse(answer.answer, KnowledgeBaseNote)), after)
    ensures var reply := Respond(chains, mem, question).0;
      reply.Done? && (reply.value.RagResponse? ==> reply.value.summary != "")
  {
    assert chains.answer(mem, question) == RagRun(env, ragLlm, prompt, mem, question);
    AnswerNeverEmpty(env, ragLlm, prompt, mem, question);
  }

  /** A question routed nowhere gets the rephrasing hint, and no chain is
      consulted. */
  lemma UnknownRouteReply(chains: Chains, mem: RagMemory, question: string)
    requires chains.route(question).route == Unknown && chains.route(question).error == ""
    ensures Respond(chains, mem, question) == (Done(Message(UnknownRouteMessage)), mem)
  {
  }

  /** A Streamlit session: its chat history, its chains, and the document
      chain whose memory the `answer` chain starts from. */
  class ChatSession {
    var history: seq<Turn>
    const chains: Chains
    const ragChain: RagChain

    /** `answer` is the document chain's run. */
    ghost predicate Valid() {
      AnsweredBy(chains, ragChain.processor.env, ragChain.llm, ragChain.prompt)
    }

    constructor (history: seq<Turn>, chains: Chains, ragChain: RagChain)
      requires AnsweredBy(chains, ragChain.processor.env, ragChain.llm, ragChain.prompt)
      ensures this.history == history && this.chains == chains && this.ragChain == ragChain && Valid()
    {
      this.history := history;
      this.chains := chains;
      this.ragChain := ragChain;
    }

    /** `process_question`: the user's turn is appended, then the reply;
      an exception escaping from the SQL path leaves only the user's turn
      and is returned. */
    method ProcessQuestion(question: string) returns (escaped: Option<string>)
      requires Valid()
      modifies this, ragChain, ragChain.processor
      ensures var (reply, after) := Respond(chains, old(ragChain.Memory()), question);
        && ragChain.Memory() == after
        && history == old(history) + [Turn(User, Message(question))]
                      + (if reply.Done? then [Turn(Assistant, reply.value)] else [])
        && escaped == (if reply.Raised? then Some(reply.message) else None)
    {
      history := history + [Turn(User, Message(question))];
      var routing := chains.route(question);
      if routing.error != "" {
        history := history + [Turn(Assistant, Message(RoutingErrorPrefix + routing.error))];
        return None;
      }
      var response: Content;
      if routing.route == Sql {
        var sqlResult := chains.sql(question);
        if sqlResult.Raised? {
          return Some(sqlResult.message);
        }
        var answer := sqlResult.value;
        if Truthy(answer.error) {
          history := history + [Turn(Assistant, Message(ErrorPrefix + answer.error.value))];
          return None;
        }
        var summaryResult := chains.summarize(question, answer.sqlQuery, answer.results);
        if summaryResult.Raised? {
          return Some(summaryResult.message);
        }
        response := SqlResponse(summaryResult.value.summary, answer.sqlQuery, answer.results);
      } else if routing.route == Rag {
        var ragResult := ragChain.ProcessQuestion(question);
        if ragResult.error != "" {
          history := history + [Turn(Assistant, Message(ErrorPrefix + ragResult.error))];
          return None;
        }
        response := RagResponse(ragResult.answer, KnowledgeBaseNote);
      } else {
        history := history + [Turn(Assistant, Message(UnknownRouteMessage))];
        return None;
      }
      history := history + [Turn(Assistant, response)];
      return None;
    }
  }
}
