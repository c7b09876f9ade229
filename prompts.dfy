/** Prompt templates (utils/prompt_utils.py): a template is literal text with
    `{name}` placeholders; formatting substitutes a value for every
    placeholder and leaves the literal text as it is. */
module Prompts {
  import opened Outcomes
  import opened Text

  /** One piece of a parsed template. */
  datatype Piece = Literal(text: string) | Slot(name: string)

  type Template = seq<Piece>

  /** Every placeholder of `t` has a value in `values`. */
  predicate Bound(t: Template, values: map<string, string>) {
    forall k | 0 <= k < |t| :: t[k].Slot? ==> t[k].name in values
  }

  /** `PromptTemplate.format(**values)`: the literal pieces in order with each
      placeholder replaced by its value; a placeholder without a value is a
      `KeyError` (`None`). */
  function Format(t: Template, values: map<string, string>): (r: Option<string>)
    ensures r.Some? <==> Bound(t, values)
    decreases |t|
  {
    if |t| == 0 then Some("")
    else
      var rest := Format(t[1..], values);
      assert Bound(t, values) <==> (t[0].Slot? ==> t[0].name in values) && Bound(t[1..], values) by {
        assert forall k | 1 <= k < |t| :: t[k] == t[1..][k - 1];
      }
      match t[0]
      case Literal(x) => if rest.Some? then Some(x + rest.value) else None
      case Slot(n) => if n in values && rest.Some? then Some(values[n] + rest.value) else None
  }

  /** Formatting handles the first piece and then the rest. */
  lemma FormatCons(p: Piece, t: Template, values: map<string, string>)
    ensures Format([p] + t, values)
         == if Format(t, values).None? || (p.Slot? && p.name !in values) then None
            else if p.Literal? then Some(p.text + Format(t, values).value)
            else Some(values[p.name] + Format(t, values).value)
  {
    assert ([p] + t)[1..] == t;
  }

  /** A template of literal, placeholder, literal. */
  lemma FormatThree(a: string, n: string, b: string, values: map<string, string>)
    requires n in values
    ensures Format([Literal(a), Slot(n), Literal(b)], values) == Some(a + values[n] + b)
  {
    FormatCons(Literal(b), [], values);
    assert [Literal(b)] + [] == [Literal(b)];
    assert Format([Literal(b)], values) == Some(b) by { assert b + "" == b; }
    FormatCons(Slot(n), [Literal(b)], values);
    assert [Slot(n)] + [Literal(b)] == [Slot(n), Literal(b)];
    FormatCons(Literal(a), [Slot(n), Literal(b)], values);
    assert [Literal(a)] + [Slot(n), Literal(b)] == [Literal(a), Slot(n), Literal(b)];
    assert a + (values[n] + b) == a + values[n] + b;
  }

  /** A template of literals alternating with two placeholders. */
  lemma FormatFive(a: string, n1: string, b: string, n2: string, c: string, values: map<string, string>)
    requires n1 in values && n2 in values
    ensures Format([Literal(a), Slot(n1), Literal(b), Slot(n2), Literal(c)], values)
         == Some(a + values[n1] + b + values[n2] + c)
  {
    var t3 := [Literal(b), Slot(n2), Literal(c)];
    FormatThree(b, n2, c, values);
    FormatCons(Slot(n1), t3, values);
    FormatCons(Literal(a), [Slot(n1)] + t3, values);
    assert [Literal(a)] + ([Slot(n1)] + t3) == [Literal(a), Slot(n1), Literal(b), Slot(n2), Literal(c)];
    assert a + (values[n1] + (b + values[n2] + c)) == a + values[n1] + b + values[n2] + c;
  }

  /** A template of literals alternating with three placeholders. */
  lemma FormatSeven(a: string, n1: string, b: string, n2: string, c: string, n3: string, d: string,
                    values: map<string, string>)
    requires n1 in values && n2 in values && n3 in values
    ensures Format([Literal(a), Slot(n1), Literal(b), Slot(n2), Literal(c), Slot(n3), Literal(d)], values)
         == Some(a + values[n1] + b + values[n2] + c + values[n3] + d)
  {
    var t5 := [Literal(b), Slot(n2), Literal(c), Slot(n3), Literal(d)];
    FormatFive(b, n2, c, n3, d, values);
    FormatCons(Slot(n1), t5, values);
    FormatCons(Literal(a), [Slot(n1)] + t5, values);
    assert [Literal(a)] + ([Slot(n1)] + t5)
        == [Literal(a), Slot(n1), Literal(b), Slot(n2), Literal(c), Slot(n3), Literal(d)];
    assert a + (values[n1] + (b + values[n2] + c + values[n3] + d))
        == a + values[n1] + b + values[n2] + c + values[n3] + d;
  }

  lemma EndsWithAppend(x: string, y: string, p: string)
    requires EndsWith(y, p)
    ensures EndsWith(x + y, p)
  {
    assert (x + y)[|x + y| - |p|..] == y[|y| - |p|..];
  }

  predicate NoBraces(s: string) {
    forall i | 0 <= i < |s| :: s[i] != '{' && s[i] != '}'
  }

  /** The template made of the literal text `s` alone. */
  function Lit(s: string): Template {
    if |s| == 0 then [] else [Literal(s)]
  }

  /** The first `c` in `s` at or after `start`. */
  function FindChar(s: string, c: char, start: nat): (r: Option<nat>)
    ensures r.Some? ==> start <= r.value < |s| && s[r.value] == c
    decreases |s| - start
  {
    if start >= |s| then None
    else if s[start] == c then Some(start)
    else FindChar(s, c, start + 1)
  }

  /** `PromptTemplate.from_template(s)`: every `{name}` becomes a placeholder,
      the text between them literal pieces. An unmatched brace, or a `{`
      inside a field name, is a `ValueError` (`None`). */
  function Parse(s: string): Option<Template>
    decreases |s|
  {
    match FindChar(s, '{', 0)
    case None => if FindChar(s, '}', 0).Some? then None else Some(Lit(s))
    case Some(i) =>
      if FindChar(s[..i], '}', 0).Some? then None
      else
        match FindChar(s, '}', i + 1)
        case None => None
        case Some(j) =>
          var name := s[i + 1..j];
          if FindChar(name, '{', 0).Some? then None
          else
            match Parse(s[j + 1..])
            case None => None
            case Some(rest) => Some(Lit(s[..i]) + [Slot(name)] + rest)
  }

  /** Text without braces has no brace to find. */
  lemma {:induction false} NoBracesNoBrace(s: string, brace: char, start: nat)
    requires NoBraces(s) && (brace == '{' || brace == '}')
    ensures FindChar(s, brace, start).None?
    decreases |s| - start
  {
    if start < |s| {
      NoBracesNoBrace(s, brace, start + 1);
    }
  }

  /** Literal text parses to itself. */
  lemma ParseLiteral(s: string)
    requires NoBraces(s)
    ensures Parse(s) == Some(Lit(s))
  {
    NoBracesNoBrace(s, '{', 0);
    NoBracesNoBrace(s, '}', 0);
  }

  /** The first `brace` at or after `start` is the one at `i` when the text
      in between has none. */
  lemma {:induction false} FirstBrace(s: string, brace: char, start: nat, i: nat)
    requires start <= i < |s| && s[i] == brace && NoBraces(s[start..i])
    requires brace == '{' || brace == '}'
    ensures FindChar(s, brace, start) == Some(i)
    decreases i - start
  {
    if start < i {
      assert s[start] == s[start..i][0];
      assert s[start + 1..i] == s[start..i][1..];
      FirstBrace(s, brace, start + 1, i);
    }
  }

  /** Where the pieces of a one-field text sit. */
  lemma FieldSlices(s: string, a: string, name: string, c: string)
    requires s == a + ("{" + name + "}") + c
    ensures var i := |a|;
      var j := |a| + 1 + |name|;
      j < |s| && s[..i] == a && s[i] == '{' && s[i + 1..j] == name && s[j] == '}' && s[j + 1..] == c
  {
    var i := |a|;
    var j := |a| + 1 + |name|;
    assert s == a + "{" + name + "}" + c;
    assert s[..i] == a && s[i + 1..j] == name && s[j + 1..] == c;
  }

  /** One step of `Parse`, at the first field. */
  lemma ParseAt(s: string, i: nat, j: nat, rest: Template)
    requires FindChar(s, '{', 0) == Some(i) && FindChar(s, '}', i + 1) == Some(j)
    requires FindChar(s[..i], '}', 0).None? && FindChar(s[i + 1..j], '{', 0).None?
    requires Parse(s[j + 1..]) == Some(rest)
    ensures Parse(s) == Some(Lit(s[..i]) + [Slot(s[i + 1..j])] + rest)
  {
  }

  /** Text with exactly one field, at `i` to `j`, parses to literal,
      placeholder, literal. */
  lemma ParseOneField(s: string, i: nat, j: nat)
    requires i < j < |s| && s[i] == '{' && s[j] == '}'
    requires NoBraces(s[..i]) && NoBraces(s[i + 1..j]) && NoBraces(s[j + 1..])
    ensures Parse(s) == Some(Lit(s[..i]) + [Slot(s[i + 1..j])] + Lit(s[j + 1..]))
  {
    assert s[0..i] == s[..i];
    FirstBrace(s, '{', 0, i);
    FirstBrace(s, '}', i + 1, j);
    NoBracesNoBrace(s[..i], '}', 0);
    NoBracesNoBrace(s[i + 1..j], '{', 0);
    ParseLiteral(s[j + 1..]);
    ParseAt(s, i, j, Lit(s[j + 1..]));
  }

  lemma NoBracesAppend(a: string, b: string)
    requires NoBraces(a) && NoBraces(b)
    ensures NoBraces(a + b)
  {
  }

  /** Text that is one `{name}` field between two non-empty literals. */
  lemma ParseFieldBetween(s: string, a: string, name: string, c: string)
    requires s == a + ("{" + name + "}") + c
    requires NoBraces(a) && NoBraces(name) && NoBraces(c) && |a| > 0 && |c| > 0
    ensures Parse(s) == Some([Literal(a), Slot(name), Literal(c)])
  {
    FieldSlices(s, a, name, c);
    ParseOneField(s, |a|, |a| + 1 + |name|);
    assert Lit(a) + [Slot(name)] + Lit(c) == [Literal(a), Slot(name), Literal(c)];
  }

  // SQL_GENERATION_TEMPLATE (utils/prompt_utils.py:8-20). Its literal text is
  // written in short fragments so that each can be checked for braces.
  const SqlIntroParts: seq<string> := [
    "\nYou are an expert SQL ",
    "query generator that helps ",
    "convert natural language ",
    "questions about sales data ",
    "into SQL queries.\n\n"
  ]
  const SqlBodyParts: seq<string> := [
    "\n\nThe database contains ",
    "information about products, ",
    "customers, and sales. You ",
    "need to generate a valid ",
    "SQL query based on the ",
    "user's question.\n\nNow, ",
    "generate a SQL query for ",
    "the following question:\n",
    "Question: "
  ]
  const SqlIntro := SqlIntroParts[0] + SqlIntroParts[1] + SqlIntroParts[2] + SqlIntroParts[3] + SqlIntroParts[4]
  const SqlBody := SqlBodyParts[0] + SqlBodyParts[1] + SqlBodyParts[2] + SqlBodyParts[3] + SqlBodyParts[4]
                    + SqlBodyParts[5] + SqlBodyParts[6] + SqlBodyParts[7] + SqlBodyParts[8]
  /** The template ends by opening a fenced SQL block for the model to fill. */
  const SqlTail := "\n\nSQL:\n```sql\n"
  const SqlGenerationTemplate: Template :=
    [Literal(SqlIntro), Slot("schema"), Literal(SqlBody), Slot("question"), Literal(SqlTail)]

  lemma SqlTemplateTextHasNoBraces()
    ensures NoBraces(SqlIntro) && NoBraces(SqlBody) && NoBraces(SqlTail)
  {
    SqlIntroHasNoBraces();
    SqlBodyHasNoBraces();
  }

  lemma SqlIntroPartsHaveNoBraces()
    ensures forall k | 0 <= k < |SqlIntroParts| :: NoBraces(SqlIntroParts[k])
  {
    var p := SqlIntroParts;
    assert NoBraces(p[0]) && NoBraces(p[1]) && NoBraces(p[2]) && NoBraces(p[3]) && NoBraces(p[4]);
  }

  lemma SqlBodyPartsHaveNoBraces()
    ensures forall k | 0 <= k < |SqlBodyParts| :: NoBraces(SqlBodyParts[k])
  {
    SqlBodyPartsHaveNoBracesFrom0();
    SqlBodyPartsHaveNoBracesFrom3();
    SqlBodyPartsHaveNoBracesFrom6();
  }

  lemma SqlBodyPartsHaveNoBracesFrom0()
    ensures NoBraces(SqlBodyParts[0]) && NoBraces(SqlBodyParts[1]) && NoBraces(SqlBodyParts[2])
  {
    var p := SqlBodyParts;
    assert NoBraces(p[0]) && NoBraces(p[1]) && NoBraces(p[2]);
  }

  lemma SqlBodyPartsHaveNoBracesFrom3()
    ensures NoBraces(SqlBodyParts[3]) && NoBraces(SqlBodyParts[4]) && NoBraces(SqlBodyParts[5])
  {
    var p := SqlBodyParts;
    assert NoBraces(p[3]) && NoBraces(p[4]) && NoBraces(p[5]);
  }

  lemma SqlBodyPartsHaveNoBracesFrom6()
    ensures NoBraces(SqlBodyParts[6]) && NoBraces(SqlBodyParts[7]) && NoBraces(SqlBodyParts[8])
  {
    var p := SqlBodyParts;
    assert NoBraces(p[6]) && NoBraces(p[7]) && NoBraces(p[8]);
  }

  lemma SqlIntroHasNoBraces()
    ensures NoBraces(SqlIntro)
  {
    var p := SqlIntroParts;
    SqlIntroPartsHaveNoBraces();
    NoBracesAppend(p[0], p[1]);
    NoBracesAppend(p[0] + p[1], p[2]);
    NoBracesAppend(p[0] + p[1] + p[2], p[3]);
    NoBracesAppend(p[0] + p[1] + p[2] + p[3], p[4]);
  }

  lemma SqlBodyHasNoBraces()
    ensures NoBraces(SqlBody)
  {
    var p := SqlBodyParts;
    SqlBodyPartsHaveNoBraces();
    NoBracesAppend(p[0], p[1]);
    NoBracesAppend(p[0] + p[1], p[2]);
    NoBracesAppend(p[0] + p[1] + p[2], p[3]);
    NoBracesAppend(p[0] + p[1] + p[2] + p[3], p[4]);
    NoBracesAppend(p[0] + p[1] + p[2] + p[3] + p[4], p[5]);
    NoBracesAppend(p[0] + p[1] + p[2] + p[3] + p[4] + p[5], p[6]);
    NoBracesAppend(p[0] + p[1] + p[2] + p[3] + p[4] + p[5] + p[6], p[7]);
    NoBracesAppend(p[0] + p[1] + p[2] + p[3] + p[4] + p[5] + p[6] + p[7], p[8]);
  }

  // RESULT_SUMMARIZATION_TEMPLATE (utils/prompt_utils.py:23-43).
  const SummaryIntro := "\nYou are an expert data analyst who explains SQL query results in clear, natural language.\n\nThe user asked the following question:\n"
  const SummaryQuery := "\n\nThe SQL query that was executed:\n```sql\n"
  const SummaryResults := "\n```\n\nThe query returned the following results:\n"
  const SummaryTail := "\n\nPlease provide a comprehensive summary of these results that answers the user's question.\nFocus on the key insights, trends, and notable data points.\nUse clear, concise language that a business user would understand.\nIf appropriate, suggest follow-up questions or additional analyses that might provide further insights.\n\nYour summary:\n"
  const ResultSummarizationTemplate: Template :=
    [Literal(SummaryIntro), Slot("question"), Literal(SummaryQuery), Slot("sql_query"),
     Literal(SummaryResults), Slot("results"), Literal(SummaryTail)]

  /** `PromptManager`: the database schema is fixed when it is built and is
      used for every SQL prompt. */
  datatype PromptManager = PromptManager(dbSchema: string) {

    /** `get_sql_generation_prompt`: the SQL template with the stored schema
        and the question in their slots; it ends with an opening ```sql
        fence, so replies often carry the query without one. */
    function SqlGenerationPrompt(question: string): (r: string)
      ensures r == SqlIntro + dbSchema + SqlBody + question + SqlTail
      ensures EndsWith(r, "```sql\n")
    {
      var values := map["schema" := dbSchema, "question" := question];
      FormatFive(SqlIntro, "schema", SqlBody, "question", SqlTail, values);
      var r := Format(SqlGenerationTemplate, values).value;
      EndsWithAppend(SqlIntro + dbSchema + SqlBody + question, SqlTail, "```sql\n");
      r
    }

    /** `get_result_summarization_prompt`: question, query and rendered
        results in their three slots, the rest of the template unchanged. */
    function ResultSummarizationPrompt(question: string, sqlQuery: string, results: string): (r: string)
      ensures r == SummaryIntro + question + SummaryQuery + sqlQuery + SummaryResults + results + SummaryTail
    {
      var values := map["question" := question, "sql_query" := sqlQuery, "results" := results];
      FormatSeven(SummaryIntro, "question", SummaryQuery, "sql_query", SummaryResults, "results", SummaryTail, values);
      Format(ResultSummarizationTemplate, values).value
    }
  }

  /** `SQLGenerationChain` formats the SQL prompt with the literal text
      `{question}` and parses the result as its own template: when the schema
      text has no braces, the schema is baked in, `{question}` is the only
      placeholder left, and formatting it with a question gives exactly the
      prompt `get_sql_generation_prompt` gives for that question. */
  lemma ChainTemplateKeepsQuestionSlot(pm: PromptManager, question: string)
    requires NoBraces(pm.dbSchema)
    ensures Parse(pm.SqlGenerationPrompt("{question}"))
         == Some([Literal(SqlIntro + pm.dbSchema + SqlBody), Slot("question"), Literal(SqlTail)])
    ensures Format([Literal(SqlIntro + pm.dbSchema + SqlBody), Slot("question"), Literal(SqlTail)],
                   map["question" := question])
         == Some(pm.SqlGenerationPrompt(question))
  {
    ChainTemplateParses(pm);
    FormatThree(SqlIntro + pm.dbSchema + SqlBody, "question", SqlTail, map["question" := question]);
  }

  /** The text around the question slot of the SQL prompt, with a schema
      that has no braces, has none either, and neither side is empty. */
  lemma ChainTemplateSides(pm: PromptManager)
    requires NoBraces(pm.dbSchema)
    ensures var head := SqlIntro + pm.dbSchema + SqlBody;
      NoBraces(head) && NoBraces(SqlTail) && |head| > 0 && |SqlTail| > 0
  {
    SqlTemplateTextHasNoBraces();
    NoBracesAppend(SqlIntro, pm.dbSchema);
    NoBracesAppend(SqlIntro + pm.dbSchema, SqlBody);
    assert |SqlIntroParts[0]| > 0;
  }

  /** The SQL prompt with the literal `{question}` as its question parses
      back to a template with one placeholder. */
  lemma ChainTemplateParses(pm: PromptManager)
    requires NoBraces(pm.dbSchema)
    ensures Parse(pm.SqlGenerationPrompt("{question}"))
         == Some([Literal(SqlIntro + pm.dbSchema + SqlBody), Slot("question"), Literal(SqlTail)])
  {
    ChainTemplateSides(pm);
    assert NoBraces("question");
    assert "{question}" == "{" + "question" + "}";
    ParseFieldBetween(pm.SqlGenerationPrompt("{question}"), SqlIntro + pm.dbSchema + SqlBody, "question", SqlTail);
  }
}
