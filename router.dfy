/** The router (chains/router_chain.py): greetings are answered with a
    guidance message; every other question goes to a one-node graph that
    asks the language model for a one-word decision, `sql` or `rag`. */
module Router {
  import opened Outcomes
  import opened Text
  import opened Prompts

  datatype Route = Sql | Rag | Unknown

  // ROUTER_PROMPT_TEMPLATE (chains/router_chain.py:19-42): literal text
  // around its one placeholder.
  const RouterIntro :=
    "\nYou are an expert system that determines whether a user's question should be answered using SQL queries on a database or by retrieving information from documents.\n\n"
    + "The system has two capabilities:\n"
    + "1. SQL: For questions about sales data, metrics, statistics, and quantitative analysis that can be answered by querying a database.\n"
    + "2. RAG (Retrieval Augmented Generation): For questions about company reports, strategies, policies, and qualitative information that would be found in documents.\n\n"
    + "Database Schema:\n"
    + "- products (product_id, product_name, category)\n"
    + "- customers (customer_id, customer_name, region)\n"
    + "- sales (order_id, product_id, customer_id, amount, order_date)\n\n"
    + "Available Documents:\n"
    + "- Sales reports\n"
    + "- Product strategies\n"
    + "- Marketing plans\n"
    + "- Company policies\n\n"
    + "User Question:\n"
  const RouterTail :=
    "\n\nDetermine whether this question should be routed to the SQL system or the RAG system.\n"
    + "Respond with exactly one word: either \"sql\" or \"rag\".\n"
  const RouterTemplate: Template := [Literal(RouterIntro), Slot("question"), Literal(RouterTail)]

  /** `self.prompt.format(question=question)`: the question in the one slot. */
  function RouterPrompt(question: string): (r: string)
    ensures r == RouterIntro + question + RouterTail
  {
    var values := map["question" := question];
    FormatThree(RouterIntro, "question", RouterTail, values);
    Format(RouterTemplate, values).value
  }

  const Greetings: seq<string> := ["hi", "hello", "hey", "greetings", "howdy"]

  const GuidanceMessage :=
    "I'm a sales data chatbot. You can ask me questions about your sales data or documents. "
    + "For example, try asking 'What are the total sales for each product category?' or 'What was our revenue in 2023?'"

  const RoutingErrorPrefix := "Error routing question: "

  /** The question, lower-cased, is one of the greetings or starts with one
      followed by a space. */
  predicate IsGreeting(question: string) {
    exists k | 0 <= k < |Greetings| ::
      Lower(question) == Greetings[k] || StartsWith(Lower(question), Greetings[k] + " ")
  }

  /** The model's decision: its reply stripped and lower-cased, when that
      is `sql` or `rag`. */
  function Decision(content: string): (r: Route)
    ensures r == Sql <==> Lower(Strip(content)) == "sql"
    ensures r == Rag <==> Lower(Strip(content)) == "rag"
  {
    var route := Lower(Strip(content));
    if route == "sql" then Sql else if route == "rag" then Rag else Unknown
  }

  /** `RouterState`. */
  datatype RouterState = RouterState(question: string, route: Route, error: string)

  /** What the node returns: a route, and an error only when the model call
      failed. */
  datatype RouterUpdate = RouterUpdate(route: Route, error: Option<string>)

  /** The graph merges a node's partial update into its state: keys the
      node returns replace the old values, the others stay. */
  function Merge(state: RouterState, update: RouterUpdate): (r: RouterState)
    ensures r.question == state.question && r.route == update.route
    ensures r.error == if update.error.Some? then update.error.value else state.error
  {
    RouterState(state.question, update.route, if update.error.Some? then update.error.value else state.error)
  }

  /** `_route_question`: the model is asked with the router prompt; a
      failure of the call is caught and reported with a prefix. */
  function RouteNode(llm: string -> Reply, state: RouterState): (r: RouterUpdate)
    ensures r.error.Some? ==> r.route == Unknown && StartsWith(r.error.value, RoutingErrorPrefix)
  {
    match llm(RouterPrompt(state.question))
    case Raised(m) =>
      StartsWithAppend(RoutingErrorPrefix, m);
      RouterUpdate(Unknown, Some(RoutingErrorPrefix + m))
    case Done(content) => RouterUpdate(Decision(content), None)
  }

  /** What `route_question` returns. */
  datatype Routing = Routing(question: string, route: Route, error: string)

  /** `route_question`: greetings short-cut the model; otherwise the graph
      runs its one node from a state with route `unknown` and an empty
      error. A non-empty error always comes with route `unknown`. */
  function RouteQuestion(llm: string -> Reply, question: string): (r: Routing)
    ensures r.question == question
    ensures r.error != "" ==> r.route == Unknown
  {
    if IsGreeting(question) then Routing(question, Unknown, GuidanceMessage)
    else
      var result := Merge(RouterState(question, Unknown, ""), RouteNode(llm, RouterState(question, Unknown, "")));
      Routing(question, result.route, result.error)
  }

  /** A greeting is answered with the guidance message, whatever the model
      would have said. */
  lemma GreetingNeedsNoModel(llm: string -> Reply, other: string -> Reply, question: string)
    requires IsGreeting(question)
    ensures RouteQuestion(llm, question) == Routing(question, Unknown, GuidanceMessage)
    ensures RouteQuestion(other, question) == RouteQuestion(llm, question)
  {
  }

  /** Any other question is routed by the model's reply to the router
      prompt: `sql` or `rag` in any case and with surrounding whitespace
      picks that route, anything else gives `unknown`, with no error. */
  lemma RouteOfReply(llm: string -> Reply, question: string, content: string)
    requires !IsGreeting(question)
    requires llm(RouterPrompt(question)) == Done(content)
    ensures RouteQuestion(llm, question) == Routing(question, Decision(content), "")
  {
  }

  /** A failed model call gives route `unknown` and the prefixed message. */
  lemma RouteOfFailure(llm: string -> Reply, question: string, message: string)
    requires !IsGreeting(question)
    requires llm(RouterPrompt(question)) == Raised(message)
    ensures RouteQuestion(llm, question) == Routing(question, Unknown, RoutingErrorPrefix + message)
  {
  }

  /** Greetings are recognised in any case and before further words, but
      only whole: "history" and "hi!" are not greetings. */
  lemma GreetingExamples()
    ensures IsGreeting("Hello")
    ensures IsGreeting("hi there")
    ensures !IsGreeting("history")
    ensures !IsGreeting("hi!")
  {
    assert Lower("Hello") == Greetings[1];
    assert Lower("hi there") == "hi there" && StartsWith("hi there", Greetings[0] + " ");
    var history := "history";
    assert Lower(history) == history;
    forall k | 0 <= k < |Greetings|
      ensures Lower(history) != Greetings[k] && !StartsWith(Lower(history), Greetings[k] + " ")
    {
      assert history[2] != ' ';
    }
    var hi := "hi!";
    assert Lower(hi) == hi;
    forall k | 0 <= k < |Greetings|
      ensures Lower(hi) != Greetings[k] && !StartsWith(Lower(hi), Greetings[k] + " ")
    {
      assert hi[2] != ' ';
    }
  }
}
