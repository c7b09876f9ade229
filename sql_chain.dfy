/** The SQL chain (chains/sql_chain.py): the model's reply to the SQL prompt
    is cut down to a query, the query passes a read-only safety gate, and
    only then is it run against the database. */
module SqlChain {
  import opened Outcomes
  import opened Text
  import opened Prompts
  import opened Database

  /** The query inside the first ```` ```sql ```` block that has a closing
      fence: the text between the opening tag and the first ```` ``` ````
      after it, stripped. This is what `re.search` with the pattern
      ```` ```sql\s*(.*?)\s*``` ```` and `re.DOTALL`, followed by
      `group(1).strip()`, gives. */
  function FencedBlock(response: string): (r: Option<string>)
    ensures r.Some? ==> Trimmed(r.value)
  {
    match IndexOf(response, "```sql", 0)
    case None => None
    case Some(i) =>
      match IndexOf(response, "```", i + 6)
      case None => None
      case Some(j) => Some(Strip(response[i + 6..j]))
  }

  /** A block is found exactly when some ```` ```sql ```` tag has a closing
      fence at or after its end. */
  lemma FencedBlockFound(response: string)
    ensures FencedBlock(response).Some? <==>
      exists i: nat, j: nat :: i + 6 <= j && OccursAt(response, "```sql", i) && OccursAt(response, "```", j)
  {
    if exists i: nat, j: nat :: i + 6 <= j && OccursAt(response, "```sql", i) && OccursAt(response, "```", j) {
      var i: nat, j: nat :| i + 6 <= j && OccursAt(response, "```sql", i) && OccursAt(response, "```", j);
      var first := IndexOf(response, "```sql", 0);
      assert first.Some? && first.value <= i;
      assert IndexOf(response, "```", first.value + 6).Some?;
    }
  }

  /** The whitespace the pattern's `\s*` parts absorb on either side of the
      group does not matter: the block is the strip of the group. */
  lemma FencedBlockIgnoresPadding(response: string, i: nat, j: nat, w1: string, m: string, w2: string)
    requires IndexOf(response, "```sql", 0) == Some(i)
    requires IndexOf(response, "```", i + 6) == Some(j)
    requires response[i + 6..j] == w1 + m + w2 && AllSpace(w1) && AllSpace(w2)
    ensures FencedBlock(response) == Some(Strip(m))
  {
    StripPadded(w1, m, w2);
  }

  /** The stripped line looks like the start of a query. */
  predicate IsStartLine(line: string) {
    StartsWith(Upper(line), "SELECT") || StartsWith(Upper(line), "WITH")
  }

  /** The lines the fallback scan captures from `lines` on, given whether it
      is already capturing: blank lines are skipped, capture starts at a
      start line and stops after the first captured line ending in `;`. */
  function Capture(lines: seq<string>, capturing: bool): seq<string>
    decreases |lines|
  {
    if |lines| == 0 then []
    else
      var line := Strip(lines[0]);
      if |line| == 0 then Capture(lines[1..], capturing)
      else if capturing || IsStartLine(line) then
        if EndsWith(line, ";") then [line] else [line] + Capture(lines[1..], true)
      else Capture(lines[1..], false)
  }

  /** `extract_sql_query`: the fenced block when there is one; otherwise the
      captured lines joined by newlines; otherwise the response itself. */
  function Extraction(response: string): string {
    match FencedBlock(response)
    case Some(q) => q
    case None =>
      var captured := Capture(Split(response, '\n'), false);
      if |captured| == 0 then response else Join(captured, "\n")
  }

  /** One step of the scan, at line `i`. */
  lemma CaptureStep(lines: seq<string>, i: nat, capturing: bool)
    requires i < |lines|
    ensures var line := Strip(lines[i]);
      Capture(lines[i..], capturing) ==
        if |line| == 0 then Capture(lines[i + 1..], capturing)
        else if capturing || IsStartLine(line) then
          if EndsWith(line, ";") then [line] else [line] + Capture(lines[i + 1..], true)
        else Capture(lines[i + 1..], false)
  {
    assert lines[i..][0] == lines[i];
    assert lines[i..][1..] == lines[i + 1..];
  }

  /** `extract_sql_query`, with its line loop, `capturing` flag and
      `break`. */
  method ExtractSqlQuery(response: string) returns (query: string)
    ensures query == Extraction(response)
  {
    var block := FencedBlock(response);
    if block.Some? {
      return block.value;
    }
    var lines := Split(response, '\n');
    var sqlLines: seq<string> := [];
    var capturing := false;
    var i := 0;
    while i < |lines|
      invariant 0 <= i <= |lines|
      invariant sqlLines + Capture(lines[i..], capturing) == Capture(lines, false)
    {
      var line := Strip(lines[i]);
      CaptureStep(lines, i, capturing);
      if |line| == 0 {
        i := i + 1;
        continue;
      }
      if !capturing && IsStartLine(line) {
        capturing := true;
      }
      if capturing {
        ghost var before := sqlLines;
        sqlLines := sqlLines + [line];
        if EndsWith(line, ";") {
          break;
        }
        AppendAssoc(before, [line], Capture(lines[i + 1..], true));
      }
      i := i + 1;
    }
    if i < |lines| {
      assert Capture(lines[i..], capturing) == [Strip(lines[i])];
    }
    assert sqlLines == Capture(lines, false);
    if |sqlLines| > 0 {
      return Join(sqlLines, "\n");
    }
    return response;
  }

  /** The stripped, non-blank lines, in order. */
  function NonBlank(lines: seq<string>): (r: seq<string>)
    ensures forall k | 0 <= k < |r| :: |r[k]| > 0 && Trimmed(r[k])
    decreases |lines|
  {
    if |lines| == 0 then []
    else if |Strip(lines[0])| == 0 then NonBlank(lines[1..])
    else [Strip(lines[0])] + NonBlank(lines[1..])
  }

  /** The lines from the first start line on. */
  function FromFirstStart(lines: seq<string>): (r: seq<string>)
    ensures |r| <= |lines| && r == lines[|lines| - |r|..]
    ensures |r| > 0 ==> IsStartLine(r[0])
    ensures forall k | 0 <= k < |lines| - |r| :: !IsStartLine(lines[k])
    decreases |lines|
  {
    if |lines| == 0 || IsStartLine(lines[0]) then lines
    else
      var r := FromFirstStart(lines[1..]);
      assert forall k | 1 <= k < |lines| - |r| :: lines[k] == lines[1..][k - 1];
      r
  }

  /** The lines up to and including the first one ending in `;`. */
  function ThroughSemicolon(lines: seq<string>): (r: seq<string>)
    ensures |r| <= |lines| && r == lines[..|r|]
    ensures forall k | 0 <= k < |r| - 1 :: !EndsWith(r[k], ";")
    ensures |r| < |lines| ==> |r| > 0 && EndsWith(r[|r| - 1], ";")
    ensures |r| == |lines| || EndsWith(r[|r| - 1], ";")
    decreases |lines|
  {
    if |lines| == 0 then []
    else if EndsWith(lines[0], ";") then [lines[0]]
    else [lines[0]] + ThroughSemicolon(lines[1..])
  }

  /** Once capturing, the scan keeps the non-blank stripped lines through
      the first one ending in `;` (or to the end). */
  lemma {:induction false} CaptureWhileCapturing(lines: seq<string>)
    ensures Capture(lines, true) == ThroughSemicolon(NonBlank(lines))
    decreases |lines|
  {
    if |lines| > 0 {
      CaptureWhileCapturing(lines[1..]);
      var line := Strip(lines[0]);
      if |line| > 0 {
        var nb := NonBlank(lines);
        assert nb == [line] + NonBlank(lines[1..]);
        assert nb[0] == line && nb[1..] == NonBlank(lines[1..]);
      }
    }
  }

  /** The scan captures exactly the non-blank stripped lines from the first
      start line through the first line ending in `;` (or to the end). */
  lemma {:induction false} CaptureIsFromStartThroughSemicolon(lines: seq<string>)
    ensures Capture(lines, false) == ThroughSemicolon(FromFirstStart(NonBlank(lines)))
    decreases |lines|
  {
    if |lines| > 0 {
      var line := Strip(lines[0]);
      if |line| == 0 {
        CaptureIsFromStartThroughSemicolon(lines[1..]);
      } else {
        var nb := NonBlank(lines);
        assert nb == [line] + NonBlank(lines[1..]);
        assert nb[0] == line && nb[1..] == NonBlank(lines[1..]);
        if IsStartLine(line) {
          CaptureWhileCapturing(lines);
        } else {
          CaptureIsFromStartThroughSemicolon(lines[1..]);
        }
      }
    }
  }

  const DangerousKeywords: seq<string> := ["INSERT", "UPDATE", "DELETE", "DROP", "ALTER", "CREATE", "TRUNCATE"]
  const EmptyQueryMessage := "Empty query"
  const NotSelectMessage := "Only SELECT queries are allowed for safety reasons"
  const DangerousPrefix := "Dangerous keyword detected: "

  /** The first keyword, in list order, that occurs in `text`. */
  function FirstDangerous(text: string, keywords: seq<string>): (r: Option<nat>)
    ensures r.Some? ==> r.value < |keywords| && Contains(text, keywords[r.value])
    ensures r.Some? ==> forall j | 0 <= j < r.value :: !Contains(text, keywords[j])
    ensures r.None? ==> forall j | 0 <= j < |keywords| :: !Contains(text, keywords[j])
    decreases |keywords|
  {
    if |keywords| == 0 then None
    else if Contains(text, keywords[0]) then Some(0)
    else
      match FirstDangerous(text, keywords[1..])
      case None => None
      case Some(k) => Some(k + 1)
  }

  /** The first keyword found is the one at `i` when no earlier one
      occurs. */
  lemma FirstDangerousAt(text: string, keywords: seq<string>, i: nat)
    requires i < |keywords| && Contains(text, keywords[i])
    requires forall j | 0 <= j < i :: !Contains(text, keywords[j])
    ensures FirstDangerous(text, keywords) == Some(i)
  {
  }

  /** `validate_sql_query`: `None` when the query may run, otherwise the
      reason it may not. */
  function Validate(query: string): Option<string> {
    if |query| == 0 || |Strip(query)| == 0 then Some(EmptyQueryMessage)
    else if !IsStartLine(Strip(query)) then Some(NotSelectMessage)
    else
      match FirstDangerous(Upper(query), DangerousKeywords)
      case Some(k) => Some(DangerousPrefix + DangerousKeywords[k])
      case None => None
  }

  /** A query passes exactly when it is not blank, starts (after stripping,
      in any case) with `SELECT` or `WITH`, and contains none of the seven
      keywords in any case, even inside an identifier. */
  lemma ValidIff(query: string)
    ensures Validate(query).None? <==>
      !AllSpace(query) && IsStartLine(Strip(query))
      && forall k | 0 <= k < |DangerousKeywords| :: !Contains(Upper(query), DangerousKeywords[k])
  {
    StripEmpty(query);
  }

  /** The rejections, in the order they are checked. */
  lemma RejectionReasons(query: string)
    ensures AllSpace(query) ==> Validate(query) == Some(EmptyQueryMessage)
    ensures !AllSpace(query) && !IsStartLine(Strip(query)) ==> Validate(query) == Some(NotSelectMessage)
    ensures !AllSpace(query) && IsStartLine(Strip(query)) && FirstDangerous(Upper(query), DangerousKeywords).Some? ==>
      Validate(query) == Some(DangerousPrefix + DangerousKeywords[FirstDangerous(Upper(query), DangerousKeywords).value])
  {
    StripEmpty(query);
  }

  /** The loop over the keyword list, stopping at the first one found. */
  method FindKeyword(text: string, keywords: seq<string>) returns (found: Option<nat>)
    ensures found == FirstDangerous(text, keywords)
  {
    for i := 0 to |keywords|
      invariant forall j | 0 <= j < i :: !Contains(text, keywords[j])
    {
      if Contains(text, keywords[i]) {
        FirstDangerousAt(text, keywords, i);
        return Some(i);
      }
    }
    return None;
  }

  /** `validate_sql_query`, with its early returns: `(True, None)` or
      `(False, reason)`. */
  method ValidateSqlQuery(query: string) returns (isValid: bool, error: Option<string>)
    ensures error == Validate(query)
    ensures isValid <==> error.None?
  {
    if |query| == 0 || |Strip(query)| == 0 {
      return false, Some(EmptyQueryMessage);
    }
    var stripped := Upper(Strip(query));
    if !StartsWith(stripped, "SELECT") && !StartsWith(stripped, "WITH") {
      return false, Some(NotSelectMessage);
    }
    var found := FindKeyword(Upper(query), DangerousKeywords);
    if found.Some? {
      return false, Some(DangerousPrefix + DangerousKeywords[found.value]);
    }
    return true, None;
  }

  /** Every rejection carries a non-empty reason, so callers that test the
      error for truthiness see it. */
  lemma RejectionsAreTruthy(query: string)
    ensures Validate(query).Some? ==> Truthy(Validate(query))
  {
  }

  // ---------------------------------------------------------------------
  // The chain object

  /** The reason `PromptTemplate.from_template` refuses a text (unbalanced
      braces) and the reason the chain refuses to run when the parsed
      template has a placeholder other than `question`. */
  const InvalidTemplateMessage := "Invalid prompt template"
  const MissingVariablesMessage := "Missing some input keys"

  /** `SQLGenerationChain`: the database, the prompt manager holding the
      schema text, the template parsed from the SQL prompt with the literal
      `{question}` in the question slot, and the language model (a
      function from the prompt to its reply, or to the error it raises). */
  datatype SqlGenerationChain = SqlGenerationChain(
    store: Store,
    promptManager: PromptManager,
    template: Template,
    llm: string -> Reply)

  /** `SQLGenerationChain.__init__`, given what `get_schema_as_string`
      returned or raised. */
  function NewSqlGenerationChain(store: Store, schemaText: Outcome<string>, llm: string -> Reply): (r: Outcome<SqlGenerationChain>)
    ensures schemaText.Raised? ==> r == Raised(schemaText.message)
    ensures r.Done? ==>
      (r.value.store == store && r.value.llm == llm
       && Some(r.value.template) == Parse(PromptManager(schemaText.value).SqlGenerationPrompt("{question}")))
  {
    match schemaText
    case Raised(m) => Raised(m)
    case Done(text) =>
      var pm := PromptManager(text);
      match Parse(pm.SqlGenerationPrompt("{question}"))
      case None => Raised(InvalidTemplateMessage)
      case Some(t) => Done(SqlGenerationChain(store, pm, t, llm))
  }

  /** With a brace-free schema text the chain is built, and the prompt it
      sends for any question is exactly `get_sql_generation_prompt` of that
      question. */
  lemma ChainPromptIsSqlGenerationPrompt(store: Store, text: string, llm: string -> Reply, question: string)
    requires NoBraces(text)
    ensures NewSqlGenerationChain(store, Done(text), llm).Done?
    ensures Format(NewSqlGenerationChain(store, Done(text), llm).value.template, map["question" := question])
         == Some(PromptManager(text).SqlGenerationPrompt(question))
  {
    ChainTemplateKeepsQuestionSlot(PromptManager(text), question);
  }

  /** What `generate_sql` returns. */
  datatype Generation = Generation(question: string, sqlQuery: string, isValid: bool, error: Option<string>)

  /** `generate_sql`: the prompt is sent to the model, the query extracted
      from its reply and validated. An error from the model, or a template
      that needs more than the question, propagates as an exception. */
  function GenerateSql(chain: SqlGenerationChain, question: string): (r: Outcome<Generation>)
    ensures r.Done? ==> r.value.question == question
    ensures r.Done? ==> r.value.error == Validate(r.value.sqlQuery) && (r.value.isValid <==> r.value.error.None?)
  {
    match Format(chain.template, map["question" := question])
    case None => Raised(MissingVariablesMessage)
    case Some(prompt) =>
      match chain.llm(prompt)
      case Raised(m) => Raised(m)
      case Done(text) =>
        var query := Extraction(text);
        var error := Validate(query);
        Done(Generation(question, query, error.None?, error))
  }

  /** `execute_sql`: the query is validated again, and only a valid one
      reaches the database. */
  function ExecuteSql(chain: SqlGenerationChain, query: string): (r: (seq<Row>, Option<string>))
    ensures Validate(query).Some? ==> r == ([], Validate(query))
    ensures r.1.None? ==> Validate(query).None?
  {
    match Validate(query)
    case Some(error) => ([], Some(error))
    case None => ExecuteQuery(chain.store, query)
  }

  /** The store is never consulted for a query that fails validation. */
  lemma InvalidQueryNeverExecuted(chain: SqlGenerationChain, query: string, other: Store)
    requires Validate(query).Some?
    ensures ExecuteSql(chain.(store := other), query) == ExecuteSql(chain, query)
  {
  }

  /** What `process_question` returns. */
  datatype SqlAnswer = SqlAnswer(question: string, sqlQuery: string, results: seq<Row>, error: Option<string>)

  /** `process_question`: generate, then execute only a valid query. An
      answer whose error is empty or absent ran a query that passed
      validation; an answer with an error carries no rows. */
  function ProcessQuestion(chain: SqlGenerationChain, question: string): (r: Outcome<SqlAnswer>)
    ensures r.Done? <==> GenerateSql(chain, question).Done?
    ensures r.Done? ==> r.value.question == question && r.value.sqlQuery == GenerateSql(chain, question).value.sqlQuery
    ensures r.Done? && !Truthy(r.value.error) ==>
      Validate(r.value.sqlQuery).None? && r.value.results == ExecuteQuery(chain.store, r.value.sqlQuery).0
    ensures r.Done? && r.value.error.Some? ==> |r.value.results| == 0
  {
    match GenerateSql(chain, question)
    case Raised(m) => Raised(m)
    case Done(g) =>
      RejectionsAreTruthy(g.sqlQuery);
      if !g.isValid then Done(SqlAnswer(question, g.sqlQuery, [], g.error))
      else
        var (results, error) := ExecuteSql(chain, g.sqlQuery);
        Done(SqlAnswer(question, g.sqlQuery, results, error))
  }

  /** End to end: for a model reply `text` to the chain's prompt, the answer
      holds the query extracted from `text` and, when it is valid, exactly
      what the database returns for it; an invalid query is answered with
      its rejection and never reaches any database. */
  lemma AnswerForReply(chain: SqlGenerationChain, question: string, prompt: string, text: string, other: Store)
    requires Format(chain.template, map["question" := question]) == Some(prompt)
    requires chain.llm(prompt) == Done(text)
    ensures var query := Extraction(text);
      ProcessQuestion(chain, question) ==
        if Validate(query).None?
        then var (rows, error) := ExecuteQuery(chain.store, query); Done(SqlAnswer(question, query, rows, error))
        else Done(SqlAnswer(question, query, [], Validate(query)))
    ensures Validate(Extraction(text)).Some? ==>
      ProcessQuestion(chain.(store := other), question) == ProcessQuestion(chain, question)
  {
  }
}
