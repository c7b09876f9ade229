/** The retrieval-augmented answerer (chains/rag_chain.py): a two-node
    graph that retrieves the three documents most relevant to the question
    and asks the language model to answer from them; after the answer node
    the graph ends when the state holds an error or an answer, and goes
    back to retrieval otherwise. Every round asks the vector store and the
    model afresh, and they need not answer as they did before. */
module Rag {
  import opened Outcomes
  import opened Text
  import opened Prompts
  import opened Documents

  /** How many documents the retrieval node asks for. */
  const RetrievalCount: nat := 3

  // RAG_PROMPT_TEMPLATE (chains/rag_chain.py:23-37): literal text around
  // its two placeholders.
  const RagIntro :=
    "\nYou are an expert sales analyst who answers questions based on the provided documents.\n\nUser Question:\n"
  const RagMiddle := "\n\nRelevant Documents:\n"
  const RagTail :=
    "\n\nPlease provide a comprehensive answer to the user's question based on the information in the documents.\n"
    + "If the documents don't contain information to answer the question, say so clearly.\n"
    + "Use clear, concise language that a business user would understand.\n\nYour answer:\n"
  const RagTemplate: Template := [Literal(RagIntro), Slot("question"), Literal(RagMiddle), Slot("context"), Literal(RagTail)]

  /** `self.prompt.format(question=question, context=context)`: the
      template's text with the question and the context in their slots. */
  function RagPrompt(question: string, context: string): string {
    RagIntro + question + RagMiddle + context + RagTail
  }

  /** Formatting the parsed template with both values gives that text. */
  lemma RagPromptFormats(question: string, context: string)
    ensures Format(RagTemplate, map["question" := question, "context" := context]) == Some(RagPrompt(question, context))
  {
    FormatFive(RagIntro, "question", RagMiddle, "context", RagTail, map["question" := question, "context" := context]);
  }

  const NoInformationAnswer := "I couldn't find any relevant information to answer your question."
  const GenerationFailedAnswer := "I encountered an error while trying to answer your question."
  const GenerationErrorPrefix := "Error generating answer: "
  const ProcessingFailedAnswer := "I encountered an error while processing your question."
  const ProcessingErrorPrefix := "Error processing question: "

  /** LangGraph's default bound on the number of node runs in one
      invocation, and the error it raises past it. */
  const RecursionLimit: nat := 25
  /** The retrieve-then-answer rounds that fit under the limit; one more
      retrieval runs before the limit stops the graph. */
  const MaxRounds: nat := RecursionLimit / 2
  const RecursionLimitMessage :=
    "Recursion limit of 25 reached without hitting a stop condition. You can increase the limit by setting the `recursion_limit` config key."

  /** `RAGState`. */
  datatype RagState = RagState(question: string, documents: seq<Document>, answer: string, error: string)

  /** What the answer node returns: an answer, and an error only when the
      model call failed. */
  datatype AnswerUpdate = AnswerUpdate(answer: string, error: Option<string>)

  /** A model the chain calls again and again: its reply to a prompt on its
      `n`-th call. */
  type Model = (nat, string) -> Reply

  /** The chain's prompt: the text it sends the model for a question and
      the documents' text. */
  type Prompt = (string, string) -> string

  /** `_generate_answer`, as the model's `call`-th call: without documents
      the model is not asked; with documents it is asked with the question
      and the documents' text; a failed call is caught and reported with a
      prefix. */
  function GenerateNode(llm: Model, prompt: Prompt, call: nat, question: string, documents: seq<Document>): (r: AnswerUpdate)
    ensures |documents| == 0 ==> r == AnswerUpdate(NoInformationAnswer, None)
    ensures r.error.Some? ==> r.answer == GenerationFailedAnswer && StartsWith(r.error.value, GenerationErrorPrefix)
  {
    if |documents| == 0 then AnswerUpdate(NoInformationAnswer, None)
    else
      match llm(call, prompt(question, DocumentContent(documents)))
      case Raised(m) =>
        StartsWithAppend(GenerationErrorPrefix, m);
        AnswerUpdate(GenerationFailedAnswer, Some(GenerationErrorPrefix + m))
      case Done(content) => AnswerUpdate(content, None)
  }

  /** The graph merges a node's update into its state: the keys the node
      returns replace the old values, the others stay. */
  function MergeAnswer(state: RagState, update: AnswerUpdate): (r: RagState)
    ensures r.question == state.question && r.documents == state.documents && r.answer == update.answer
    ensures r.error == if update.error.Some? then update.error.value else state.error
  {
    state.(answer := update.answer, error := if update.error.Some? then update.error.value else state.error)
  }

  /** `_should_end`: the state holds an error or an answer. */
  predicate ShouldEnd(state: RagState) {
    state.error != "" || state.answer != ""
  }

  /** What `process_question` returns. */
  datatype RagAnswer = RagAnswer(question: string, answer: string, error: string)

  /** The answer when the graph stops at the recursion limit. */
  function LimitAnswer(question: string): RagAnswer {
    RagAnswer(question, ProcessingFailedAnswer, ProcessingErrorPrefix + RecursionLimitMessage)
  }

  /** What a run leaves behind for the next: the processor's cached
      database, how many retrievals the processor has served and how many
      calls the chain has made to its model. */
  datatype RagMemory = RagMemory(cache: Option<VectorDb>, retrievals: nat, calls: nat)

  /** The run from the start of round `round`, in which the state holds no
      answer and no error: the retrieval node, then (below the limit) the
      answer node. */
  function Round(env: DocumentEnvironment, llm: Model, prompt: Prompt, question: string, mem: RagMemory, round: nat): (r: (RagAnswer, RagMemory))
    requires round <= MaxRounds
    ensures r.0.question == question
    decreases MaxRounds - round, 1
  {
    var (documents, cache) := Retrieval(env, mem.cache, mem.retrievals, question, RetrievalCount);
    var retrieved := mem.(cache := cache, retrievals := mem.retrievals + 1);
    if round == MaxRounds then (LimitAnswer(question), retrieved)
    else Answer(env, llm, prompt, question, retrieved, round, documents)
  }

  /** The run from the answer node of round `round`, with `documents`
      retrieved: it ends when the state then holds an answer or an error,
      and goes on to the next round otherwise. */
  function Answer(env: DocumentEnvironment, llm: Model, prompt: Prompt, question: string, mem: RagMemory, round: nat, documents: seq<Document>): (r: (RagAnswer, RagMemory))
    requires round < MaxRounds
    ensures r.0.question == question
    decreases MaxRounds - round, 0
  {
    var update := GenerateNode(llm, prompt, mem.calls, question, documents);
    var asked := if |documents| > 0 then mem.(calls := mem.calls + 1) else mem;
    var state := MergeAnswer(RagState(question, documents, "", ""), update);
    if ShouldEnd(state) then (RagAnswer(question, state.answer, state.error), asked)
    else Round(env, llm, prompt, question, asked, round + 1)
  }

  /** A round opens with the retrieval node: what it leaves is what the
      processor's retrieval gives. */
  lemma RoundOpens(env: DocumentEnvironment, llm: Model, prompt: Prompt, question: string, mem: RagMemory, round: nat, documents: seq<Document>, after: RagMemory)
    requires round <= MaxRounds
    requires (documents, after.cache) == Retrieval(env, mem.cache, mem.retrievals, question, RetrievalCount)
    requires after.retrievals == mem.retrievals + 1 && after.calls == mem.calls
    ensures Round(env, llm, prompt, question, mem, round) ==
      if round == MaxRounds then (LimitAnswer(question), after) else Answer(env, llm, prompt, question, after, round, documents)
  {
  }

  /** The answer node asks the model once when there are documents, and
      the conditional edge then ends the run or starts the next round. */
  lemma AnswerCloses(env: DocumentEnvironment, llm: Model, prompt: Prompt, question: string, mem: RagMemory, round: nat, documents: seq<Document>, after: RagMemory)
    requires round < MaxRounds
    requires after == if |documents| > 0 then mem.(calls := mem.calls + 1) else mem
    ensures var state := MergeAnswer(RagState(question, documents, "", ""), GenerateNode(llm, prompt, mem.calls, question, documents));
      Answer(env, llm, prompt, question, mem, round, documents) ==
        if ShouldEnd(state) then (RagAnswer(question, state.answer, state.error), after)
        else Round(env, llm, prompt, question, after, round + 1)
  {
  }

  /** `process_question` from memory `mem`: the answer and the memory
      afterwards. */
  function RagRun(env: DocumentEnvironment, llm: Model, prompt: Prompt, mem: RagMemory, question: string): (r: (RagAnswer, RagMemory))
    ensures r.0.question == question
  {
    Round(env, llm, prompt, question, mem, 0)
  }

  // ---------------------------------------------------------------------
  // The rounds of a run, one by one

  /** The cache a run works from once its first retrieval is done. */
  function FirstCache(env: DocumentEnvironment, mem: RagMemory, question: string): Option<VectorDb> {
    Retrieval(env, mem.cache, mem.retrievals, question, RetrievalCount).1
  }

  /** The memory at the start of round `i` when every earlier round found
      documents and got an empty reply. */
  function RoundMemory(env: DocumentEnvironment, mem: RagMemory, question: string, i: nat): (r: RagMemory)
    ensures r.retrievals == mem.retrievals + i && r.calls == mem.calls + i
  {
    if i == 0 then mem else RagMemory(FirstCache(env, mem, question), mem.retrievals + i, mem.calls + i)
  }

  /** The documents round `i` retrieves, in that case. */
  function RoundDocuments(env: DocumentEnvironment, mem: RagMemory, question: string, i: nat): seq<Document> {
    var m := RoundMemory(env, mem, question, i);
    Retrieval(env, m.cache, m.retrievals, question, RetrievalCount).0
  }

  /** The model's reply in round `i`, in that case. */
  function RoundReply(env: DocumentEnvironment, llm: Model, prompt: Prompt, mem: RagMemory, question: string, i: nat): Reply {
    llm(mem.calls + i, prompt(question, DocumentContent(RoundDocuments(env, mem, question, i))))
  }

  /** Round `i` found documents and the model replied with empty text, so
      the graph goes back to retrieval. */
  predicate EmptyRound(env: DocumentEnvironment, llm: Model, prompt: Prompt, mem: RagMemory, question: string, i: nat) {
    |RoundDocuments(env, mem, question, i)| > 0 && RoundReply(env, llm, prompt, mem, question, i) == Done("")
  }

  /** The answer a round ends the run with when it is not an empty round:
      no documents, the model's failure, or its reply. */
  function RoundAnswer(env: DocumentEnvironment, llm: Model, prompt: Prompt, mem: RagMemory, question: string, i: nat): RagAnswer {
    var update := GenerateNode(llm, prompt, mem.calls + i, question, RoundDocuments(env, mem, question, i));
    RagAnswer(question, update.answer, if update.error.Some? then update.error.value else "")
  }

  /** A round that finds documents and gets an empty reply hands over to
      the next, having retrieved once and called the model once. */
  lemma EmptyRoundContinues(env: DocumentEnvironment, llm: Model, prompt: Prompt, question: string, mem: RagMemory, round: nat)
    requires round < MaxRounds
    requires var documents := Retrieval(env, mem.cache, mem.retrievals, question, RetrievalCount).0;
      |documents| > 0 && llm(mem.calls, prompt(question, DocumentContent(documents))) == Done("")
    ensures Round(env, llm, prompt, question, mem, round) ==
      Round(env, llm, prompt, question,
        RagMemory(Retrieval(env, mem.cache, mem.retrievals, question, RetrievalCount).1, mem.retrievals + 1, mem.calls + 1),
        round + 1)
  {
  }

  /** Any other round below the limit ends the run with the answer node's
      update. */
  lemma OtherRoundEnds(env: DocumentEnvironment, llm: Model, prompt: Prompt, question: string, mem: RagMemory, round: nat)
    requires round < MaxRounds
    requires var documents := Retrieval(env, mem.cache, mem.retrievals, question, RetrievalCount).0;
      !(|documents| > 0 && llm(mem.calls, prompt(question, DocumentContent(documents))) == Done(""))
    ensures var update := GenerateNode(llm, prompt, mem.calls, question, Retrieval(env, mem.cache, mem.retrievals, question, RetrievalCount).0);
      Round(env, llm, prompt, question, mem, round).0 ==
        RagAnswer(question, update.answer, if update.error.Some? then update.error.value else "")
    ensures var update := GenerateNode(llm, prompt, mem.calls, question, Retrieval(env, mem.cache, mem.retrievals, question, RetrievalCount).0);
      update.answer != ""
  {
  }

  /** When the first retrieval finds documents, their database is cached
      and every later retrieval keeps it. */
  lemma FirstCacheKept(env: DocumentEnvironment, mem: RagMemory, question: string, n: nat)
    requires |Retrieval(env, mem.cache, mem.retrievals, question, RetrievalCount).0| > 0
    ensures FirstCache(env, mem, question).Some?
    ensures Retrieval(env, FirstCache(env, mem, question), n, question, RetrievalCount).1 == FirstCache(env, mem, question)
  {
    RetrievalKeepsDatabase(env, env, mem.cache, mem.retrievals, n, question, RetrievalCount);
  }

  /** The memory after round `j` hands over to round `j + 1`, once the
      first retrieval has found documents. */
  lemma NextRoundMemory(env: DocumentEnvironment, mem: RagMemory, question: string, j: nat)
    requires |Retrieval(env, mem.cache, mem.retrievals, question, RetrievalCount).0| > 0
    ensures var m := RoundMemory(env, mem, question, j);
      RagMemory(Retrieval(env, m.cache, m.retrievals, question, RetrievalCount).1, m.retrievals + 1, m.calls + 1)
        == RoundMemory(env, mem, question, j + 1)
  {
    FirstCacheKept(env, mem, question, mem.retrievals + j);
  }

  /** What an empty round `j` gives the next: it found documents, the
      model replied with empty text, and the memory it leaves is the one
      round `j + 1` starts from. */
  lemma EmptyRoundHandsOver(env: DocumentEnvironment, llm: Model, prompt: Prompt, mem: RagMemory, question: string, j: nat)
    requires EmptyRound(env, llm, prompt, mem, question, j) && EmptyRound(env, llm, prompt, mem, question, 0)
    ensures var m := RoundMemory(env, mem, question, j);
      var (documents, cache) := Retrieval(env, m.cache, m.retrievals, question, RetrievalCount);
      |documents| > 0 && llm(m.calls, prompt(question, DocumentContent(documents))) == Done("")
      && RagMemory(cache, m.retrievals + 1, m.calls + 1) == RoundMemory(env, mem, question, j + 1)
  {
    assert RoundMemory(env, mem, question, 0) == mem;
    NextRoundMemory(env, mem, question, j);
  }

  /** After an empty round `j`, the run goes on with round `j + 1` from
      the memory `RoundMemory` gives it. */
  lemma NextRound(env: DocumentEnvironment, llm: Model, prompt: Prompt, mem: RagMemory, question: string, j: nat)
    requires j < MaxRounds
    requires EmptyRound(env, llm, prompt, mem, question, j) && EmptyRound(env, llm, prompt, mem, question, 0)
    ensures Round(env, llm, prompt, question, RoundMemory(env, mem, question, j), j)
         == Round(env, llm, prompt, question, RoundMemory(env, mem, question, j + 1), j + 1)
  {
    EmptyRoundHandsOver(env, llm, prompt, mem, question, j);
    EmptyRoundContinues(env, llm, prompt, question, RoundMemory(env, mem, question, j), j);
  }

  /** Up to the first round that is not empty, the run goes round by round
      with the memory `RoundMemory` describes. */
  lemma {:induction false} RunReachesRound(env: DocumentEnvironment, llm: Model, prompt: Prompt, mem: RagMemory, question: string, k: nat)
    requires k <= MaxRounds
    requires forall j | 0 <= j < k :: EmptyRound(env, llm, prompt, mem, question, j)
    ensures RagRun(env, llm, prompt, mem, question) == Round(env, llm, prompt, question, RoundMemory(env, mem, question, k), k)
  {
    if k == 0 {
      assert RoundMemory(env, mem, question, 0) == mem;
    } else {
      RunReachesRound(env, llm, prompt, mem, question, k - 1);
      NextRound(env, llm, prompt, mem, question, k - 1);
    }
  }

  /** The run ends at the first round that is not empty, with that round's
      answer: the no-information answer when it found no documents, the
      failure when the model call raised, and otherwise the model's
      (non-empty) reply. */
  lemma RunEndsAtFirstAnswer(env: DocumentEnvironment, llm: Model, prompt: Prompt, mem: RagMemory, question: string, i: nat)
    requires i < MaxRounds
    requires forall j | 0 <= j < i :: EmptyRound(env, llm, prompt, mem, question, j)
    requires !EmptyRound(env, llm, prompt, mem, question, i)
    ensures RagRun(env, llm, prompt, mem, question).0 == RoundAnswer(env, llm, prompt, mem, question, i)
    ensures var documents := RoundDocuments(env, mem, question, i);
      var reply := RoundReply(env, llm, prompt, mem, question, i);
      RagRun(env, llm, prompt, mem, question).0 ==
        if |documents| == 0 then RagAnswer(question, NoInformationAnswer, "")
        else if reply.Raised? then RagAnswer(question, GenerationFailedAnswer, GenerationErrorPrefix + reply.message)
        else RagAnswer(question, reply.value, "")
    ensures RoundAnswer(env, llm, prompt, mem, question, i).answer != ""
  {
    RunReachesRound(env, llm, prompt, mem, question, i);
    RoundEndsRun(env, llm, prompt, mem, question, i);
  }

  /** A round that is not empty ends the run with its answer. */
  lemma RoundEndsRun(env: DocumentEnvironment, llm: Model, prompt: Prompt, mem: RagMemory, question: string, i: nat)
    requires i < MaxRounds
    requires !EmptyRound(env, llm, prompt, mem, question, i)
    ensures Round(env, llm, prompt, question, RoundMemory(env, mem, question, i), i).0 == RoundAnswer(env, llm, prompt, mem, question, i)
    ensures RoundAnswer(env, llm, prompt, mem, question, i).answer != ""
  {
    var m := RoundMemory(env, mem, question, i);
    assert Retrieval(env, m.cache, m.retrievals, question, RetrievalCount).0 == RoundDocuments(env, mem, question, i);
    OtherRoundEnds(env, llm, prompt, question, m, i);
  }

  /** A first non-empty round, when not every round is empty. */
  lemma {:induction false} FirstAnswerRound(env: DocumentEnvironment, llm: Model, prompt: Prompt, mem: RagMemory, question: string, k: nat) returns (i: nat)
    requires k <= MaxRounds
    requires forall j | 0 <= j < k :: EmptyRound(env, llm, prompt, mem, question, j)
    requires exists j | k <= j < MaxRounds :: !EmptyRound(env, llm, prompt, mem, question, j)
    ensures k <= i < MaxRounds && !EmptyRound(env, llm, prompt, mem, question, i)
    ensures forall j | 0 <= j < i :: EmptyRound(env, llm, prompt, mem, question, j)
    decreases MaxRounds - k
  {
    if EmptyRound(env, llm, prompt, mem, question, k) {
      i := FirstAnswerRound(env, llm, prompt, mem, question, k + 1);
    } else {
      i := k;
    }
  }

  /** A round that ends the run answers otherwise than the recursion
      limit does. */
  lemma RoundAnswerNotLimit(env: DocumentEnvironment, llm: Model, prompt: Prompt, mem: RagMemory, question: string, i: nat)
    ensures RoundAnswer(env, llm, prompt, mem, question, i) != LimitAnswer(question)
  {
    var a := RoundAnswer(env, llm, prompt, mem, question, i);
    if a.error != "" {
      assert a.answer == GenerationFailedAnswer;
      assert GenerationFailedAnswer[33] != ProcessingFailedAnswer[33];
    }
  }

  /** The run stops at the recursion limit exactly when every round below
      the limit found documents and got an empty reply. */
  lemma LimitIff(env: DocumentEnvironment, llm: Model, prompt: Prompt, mem: RagMemory, question: string)
    ensures RagRun(env, llm, prompt, mem, question).0 == LimitAnswer(question) <==>
      forall j | 0 <= j < MaxRounds :: EmptyRound(env, llm, prompt, mem, question, j)
  {
    if forall j | 0 <= j < MaxRounds :: EmptyRound(env, llm, prompt, mem, question, j) {
      RunReachesRound(env, llm, prompt, mem, question, MaxRounds);
    } else {
      var i := FirstAnswerRound(env, llm, prompt, mem, question, 0);
      RunEndsAtFirstAnswer(env, llm, prompt, mem, question, i);
      RoundAnswerNotLimit(env, llm, prompt, mem, question, i);
    }
  }

  /** The answer is never empty. */
  lemma AnswerNeverEmpty(env: DocumentEnvironment, llm: Model, prompt: Prompt, mem: RagMemory, question: string)
    ensures RagRun(env, llm, prompt, mem, question).0.answer != ""
  {
    LimitIff(env, llm, prompt, mem, question);
    if !(forall j | 0 <= j < MaxRounds :: EmptyRound(env, llm, prompt, mem, question, j)) {
      var i := FirstAnswerRound(env, llm, prompt, mem, question, 0);
      RunEndsAtFirstAnswer(env, llm, prompt, mem, question, i);
    }
  }

  /** Without documents in the first round the model is never asked: the
      answer says nothing relevant was found, with no error. */
  lemma NoDocumentsNoModel(env: DocumentEnvironment, llm: Model, prompt: Prompt, other: Model, mem: RagMemory, question: string)
    requires |Retrieval(env, mem.cache, mem.retrievals, question, RetrievalCount).0| == 0
    ensures RagRun(env, llm, prompt, mem, question).0 == RagAnswer(question, NoInformationAnswer, "")
    ensures RagRun(env, other, prompt, mem, question) == RagRun(env, llm, prompt, mem, question)
  {
  }

  /** Only the first retrieval of a run can change the cache: once it
      found documents, their database stays cached through every later
      round. */
  lemma {:induction false} RoundCache(env: DocumentEnvironment, llm: Model, prompt: Prompt, question: string, mem: RagMemory, round: nat)
    requires round <= MaxRounds
    ensures Round(env, llm, prompt, question, mem, round).1.cache == Retrieval(env, mem.cache, mem.retrievals, question, RetrievalCount).1
    decreases MaxRounds - round
  {
    var (documents, cache) := Retrieval(env, mem.cache, mem.retrievals, question, RetrievalCount);
    if round < MaxRounds && |documents| > 0 {
      var next := RagMemory(cache, mem.retrievals + 1, mem.calls + 1);
      RoundCache(env, llm, prompt, question, next, round + 1);
      RetrievalKeepsDatabase(env, env, mem.cache, mem.retrievals, next.retrievals, question, RetrievalCount);
    }
  }

  /** The cache a run leaves is the one its first retrieval left. */
  lemma RunCache(env: DocumentEnvironment, llm: Model, prompt: Prompt, mem: RagMemory, question: string)
    ensures RagRun(env, llm, prompt, mem, question).1.cache == FirstCache(env, mem, question)
  {
    RoundCache(env, llm, prompt, question, mem, 0);
  }

  /** Services that answer every call alike: the same search gives the
      same documents and the same prompt the same reply. */
  ghost predicate Steady(env: DocumentEnvironment, llm: Model) {
    (forall n, m, d, q, k :: env.search(n, d, q, k) == env.search(m, d, q, k))
    && (forall n, m, p :: llm(n, p) == llm(m, p))
  }

  /** With such services, an empty reply in the first round repeats in
      every round, and the run stops at the recursion limit. */
  lemma SteadyEmptyReplyHitsLimit(env: DocumentEnvironment, llm: Model, prompt: Prompt, mem: RagMemory, question: string)
    requires Steady(env, llm)
    requires EmptyRound(env, llm, prompt, mem, question, 0)
    ensures RagRun(env, llm, prompt, mem, question).0 == LimitAnswer(question)
  {
    assert RoundMemory(env, mem, question, 0) == mem;
    var db := Acquire(env, mem.cache).0;
    assert db.Some?;
    forall j | 0 <= j < MaxRounds
      ensures EmptyRound(env, llm, prompt, mem, question, j)
    {
      if j > 0 {
        assert RoundDocuments(env, mem, question, j) == Found(env.search(mem.retrievals + j, db.value, question, RetrievalCount));
        assert RoundDocuments(env, mem, question, j) == RoundDocuments(env, mem, question, 0);
        assert RoundReply(env, llm, prompt, mem, question, j) == RoundReply(env, llm, prompt, mem, question, 0);
      }
    }
    LimitIff(env, llm, prompt, mem, question);
  }

  /** `RAGChain`: the document processor it retrieves through, the
      language model, the prompt parsed from `RAG_PROMPT_TEMPLATE`, and how
      many calls it has made to the model. */
  class RagChain {
    const processor: DocumentProcessor
    const llm: Model
    const prompt: Prompt
    var calls: nat

    constructor (processor: DocumentProcessor, llm: Model)
      ensures this.processor == processor && this.llm == llm && prompt == RagPrompt && calls == 0
    {
      this.processor := processor;
      this.llm := llm;
      prompt := RagPrompt;
      calls := 0;
    }

    /** What a run leaves behind, as it stands now. */
    function Memory(): RagMemory
      reads this, processor
    {
      RagMemory(processor.vectorDb, processor.retrievals, calls)
    }

    /** `_retrieve_documents`: the state with the documents the processor
        retrieves for its question. */
    method RetrieveNode(state: RagState) returns (next: RagState)
      modifies processor
      ensures var (documents, cache) := Retrieval(processor.env, old(processor.vectorDb), old(processor.retrievals), state.question, RetrievalCount);
        next == state.(documents := documents) && processor.vectorDb == cache
      ensures processor.retrievals == old(processor.retrievals) + 1
    {
      var documents := processor.RetrieveDocuments(state.question, RetrievalCount);
      next := state.(documents := documents);
    }

    /** `_generate_answer`: the update the answer node gives, asking the
        model once when there are documents. */
    method AnswerNode(state: RagState) returns (update: AnswerUpdate)
      modifies this
      ensures update == GenerateNode(llm, prompt, old(calls), state.question, state.documents)
      ensures calls == if |state.documents| > 0 then old(calls) + 1 else old(calls)
    {
      update := GenerateNode(llm, prompt, calls, state.question, state.documents);
      if |state.documents| > 0 {
        calls := calls + 1;
      }
    }

    /** One round of the graph from a state with no answer and no error:
        the retrieval node, then, below the recursion limit, the answer
        node and the conditional edge. `ended` tells whether the run ended
        in this round, with answer `r`. */
    method RunRound(state: RagState, round: nat, ghost total: (RagAnswer, RagMemory)) returns (ended: bool, r: RagAnswer)
      requires round <= MaxRounds && state.answer == "" && state.error == ""
      requires Round(processor.env, llm, prompt, state.question, Memory(), round) == total
      modifies this, processor
      ensures ended ==> (r, Memory()) == total
      ensures !ended ==> round < MaxRounds && Round(processor.env, llm, prompt, state.question, Memory(), round + 1) == total
    {
      ghost var before := Memory();
      var retrieved := RetrieveNode(state);
      ghost var afterRetrieval := Memory();
      RoundOpens(processor.env, llm, prompt, state.question, before, round, retrieved.documents, afterRetrieval);
      if round == MaxRounds {
        // the node runs so far have reached the recursion limit
        return true, LimitAnswer(state.question);
      }
      var update := AnswerNode(retrieved);
      AnswerCloses(processor.env, llm, prompt, state.question, afterRetrieval, round, retrieved.documents, Memory());
      var answered := MergeAnswer(retrieved, update);
      return ShouldEnd(answered), RagAnswer(state.question, answered.answer, answered.error);
    }

    /** `process_question`: the graph run node by node from the initial
        state: retrieval, then the answer node, until `_should_end` holds
        after an answer; the run fails when the retrieval after the last
        round that fits under the recursion limit has run. */
    method ProcessQuestion(question: string) returns (r: RagAnswer)
      modifies this, processor
      ensures (r, Memory()) == RagRun(processor.env, llm, prompt, old(Memory()), question)
    {
      ghost var total := RagRun(processor.env, llm, prompt, Memory(), question);
      var state := RagState(question, [], "", "");
      var round: nat := 0;
      while true
        invariant round <= MaxRounds
        invariant Round(processor.env, llm, prompt, question, Memory(), round) == total
        decreases MaxRounds - round
      {
        var ended;
        ended, r := RunRound(state, round, total);
        if ended {
          return r;
        }
        round := round + 1;
      }
    }
  }
}
