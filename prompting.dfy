/** The prompt template `QUERY_FANOUT_PROMPT(q, mode)`: a fixed preamble, the
    query and the mode inserted verbatim, a count instruction whose minimum
    depends on the mode, and a fixed block describing the JSON answer. */
module Prompting {
  import opened PyValues

  /** The one mode value that gets the lower minimum; any other string,
      not only "AI Mode (complex)", gets the higher one. */
  const SimpleMode: string := "AI Overview (simple)"
  const ComplexMode: string := "AI Mode (complex)"

  const MinQueriesSimple: nat := 10
  const MinQueriesComplex: nat := 20

  /** The minimum number of queries the prompt asks for in `mode`. */
  function MinQueries(mode: string): (n: nat)
    ensures n == MinQueriesSimple <==> mode == SimpleMode
    ensures n == MinQueriesComplex <==> mode != SimpleMode
  {
    if mode == SimpleMode then MinQueriesSimple else MinQueriesComplex
  }

  function DigitChar(d: nat): (c: char)
    requires d < 10
    ensures '0' <= c <= '9' && c as int - '0' as int == d
  {
    (d + '0' as int) as char
  }

  /** The decimal digits Python's f-string prints for a non-negative int. */
  function Decimal(n: nat): (s: string)
    ensures |s| >= 1
    ensures forall i :: 0 <= i < |s| ==> '0' <= s[i] <= '9'
    ensures |s| > 1 ==> s[0] != '0'
  {
    if n < 10 then [DigitChar(n)] else Decimal(n / 10) + [DigitChar(n % 10)]
  }

  /** Reads a string of decimal digits back as a number. */
  function DecimalValue(s: string): nat
  {
    if s == [] then 0
    else if '0' <= s[|s| - 1] <= '9' then
      DecimalValue(s[..|s| - 1]) * 10 + (s[|s| - 1] as int - '0' as int)
    else DecimalValue(s[..|s| - 1]) * 10
  }

  /** The printed count is the count: `Decimal` loses nothing. */
  lemma {:induction false} DecimalRoundTrip(n: nat)
    ensures DecimalValue(Decimal(n)) == n
  {
    if n >= 10 {
      DecimalRoundTrip(n / 10);
      var s := Decimal(n);
      assert s[..|s| - 1] == Decimal(n / 10);
    }
  }

  /** Both minimums print as two digits: "10" and "20". */
  lemma DecimalOfMinimum(mode: string)
    ensures Decimal(MinQueries(mode)) == if mode == SimpleMode then "10" else "20"
  {
    assert Decimal(1) == "1" && Decimal(2) == "2";
  }

  /** The fixed text of the two f-strings, piece by piece, in the order the
      pieces appear; q, mode and the minimum go between them. */
  datatype Template = Template(
    preamble: string,       // first line of the prompt
    queryOpen: string,      // `User Query: "` before q
    queryClose: string,     // the closing quote and newline after q
    modeOpen: string,       // `Mode: "` before mode
    modeClose: string,      // the closing quote and blank line after mode
    taskHead: string,       // the task heading and the start of its item 1
    queryIntro: string,     // the count instruction up to q
    modeIntro: string,      // between q and mode in the count instruction
    modeOutro: string,      // after mode, up to the minimum's sentence
    thresholdOpen: string,  // `This number must be **at least `
    thresholdClose: string, // `**.`
    taskTail: string,       // items 2 and 3 of the task
    schema: string)         // the block describing the JSON answer

  /** The text `QUERY_FANOUT_PROMPT` writes around its arguments. */
  const Qforia: Template := Template(
    "You are simulating Google's AI Mode query fan-out process.\n",
    "User Query: \"",
    "\"\n",
    "Mode: \"",
    "\"\n\n",
    "**Task:**\n1. Determine the target number of queries based on: ",
    "First, analyze the user's query: \"",
    "\". Based on its complexity and the '",
    "' mode, **you must decide on an optimal number of queries to generate.** ",
    "This number must be **at least ",
    "**.",
      "\n2. Generate exactly that many unique synthetic queries.\n"
      + "3. Ensure diversity: Reformulations, Related, Implicit, Comparative, Entity Expansions, Personalized.\n\n",
      "**Return JSON Only:**\n"
      + "The response must be a valid JSON object with this structure:\n"
      + "{\n"
      + "  \"generation_details\": {\n"
      + "    \"target_query_count\": <integer>,\n"
      + "    \"reasoning_for_count\": \"<string>\"\n"
      + "  },\n"
      + "  \"expanded_queries\": [\n"
      + "    {\n"
      + "      \"query\": \"<string>\",\n"
      + "      \"type\": \"<string>\",\n"
      + "      \"user_intent\": \"<string>\",\n"
      + "      \"reasoning\": \"<string>\"\n"
      + "    }\n"
      + "  ]\n"
      + "}")

  /** The last sentence of the count instruction, for the minimum `n`. */
  function ThresholdClause(t: Template, n: nat): string
  {
    t.thresholdOpen + Decimal(n) + t.thresholdClose
  }

  /** `num_queries_instruction`: the same sentence in both branches, except
      for the minimum `n`. */
  function CountInstruction(t: Template, q: string, mode: string, n: nat): string
  {
    t.queryIntro + q + t.modeIntro + mode + t.modeOutro + ThresholdClause(t, n)
  }

  function QueryLine(t: Template, q: string): string { t.queryOpen + q + t.queryClose }

  function ModeLine(t: Template, mode: string): string { t.modeOpen + mode + t.modeClose }

  /** The text before the count instruction. */
  function Head(t: Template, q: string, mode: string): string
  {
    t.preamble + QueryLine(t, q) + ModeLine(t, mode) + t.taskHead
  }

  /** The text after the count instruction: the same for every q and mode. */
  function Tail(t: Template): string { t.taskTail + t.schema }

  /** The returned f-string, for any fixed text and any minimum `n`. */
  function Render(t: Template, q: string, mode: string, n: nat): string
  {
    Head(t, q, mode) + CountInstruction(t, q, mode, n) + Tail(t)
  }

  /** `s` holds `pat` starting at index `i`. */
  predicate OccursAt(pat: string, s: string, i: nat) {
    i + |pat| <= |s| && s[i..i + |pat|] == pat
  }

  /** `s` ends with `suffix`. */
  predicate EndsWith(s: string, suffix: string) {
    |suffix| <= |s| && s[|s| - |suffix|..] == suffix
  }

  lemma OccursBetween(a: string, pat: string, b: string)
    ensures OccursAt(pat, a + pat + b, |a|)
  {
    assert (a + pat + b)[|a|..|a| + |pat|] == pat;
  }

  lemma OccursExtend(pat: string, s: string, i: nat, t: string)
    requires OccursAt(pat, s, i)
    ensures OccursAt(pat, s + t, i)
  {
    assert (s + t)[i..i + |pat|] == s[i..i + |pat|];
  }

  lemma OccursWithin(pat: string, part: string, s: string, i: nat, j: nat)
    requires OccursAt(part, s, i) && OccursAt(pat, part, j)
    ensures OccursAt(pat, s, i + j)
  {
    forall k | 0 <= k < |pat| ensures s[i + j + k] == pat[k] {
      assert part[j + k] == pat[k];
      assert s[i..i + |part|][j + k] == s[i + j + k];
    }
  }

  lemma OccursPrefix(a: string, b: string, s: string, i: nat)
    requires OccursAt(a + b, s, i)
    ensures OccursAt(a, s, i)
  {
    assert s[i..i + |a|] == (a + b)[..|a|];
  }

  lemma OccursAtStart(pat: string, b: string)
    ensures OccursAt(pat, pat + b, 0)
  {
    assert (pat + b)[..|pat|] == pat;
  }

  lemma OccursAtEnd(a: string, pat: string)
    ensures OccursAt(pat, a + pat, |a|)
  {
    assert (a + pat)[|a|..] == pat;
  }

  lemma EndsWithConcat(a: string, b: string)
    ensures EndsWith(a + b, b)
  {
    assert (a + b)[|a|..] == b;
  }

  lemma EndsWithPrepend(a: string, s: string, x: string)
    requires EndsWith(s, x)
    ensures EndsWith(a + s, x)
  {
    assert (a + s)[|a + s| - |x|..] == s[|s| - |x|..];
  }

  lemma EndsWithExtend(s: string, x: string, y: string)
    requires EndsWith(s, x)
    ensures EndsWith(s + y, x + y)
  {
    assert (s + y)[|s + y| - |x + y|..] == s[|s| - |x|..] + y;
  }

  lemma Regroup(a: string, b: string, c: string)
    ensures a + b + c == a + (b + c)
  {
  }

  lemma PrefixThenOccurs(s: string, p: string, o: string)
    requires p <= s && OccursAt(o, s, |p|)
    ensures p + o <= s
  {
    assert s[..|p| + |o|] == s[..|p|] + s[|p|..|p| + |o|];
  }

  /** The query line sits in the head, right after the preamble. */
  lemma QueryLineInHead(t: Template, q: string, mode: string)
    ensures OccursAt(QueryLine(t, q), Head(t, q, mode), |t.preamble|)
  {
    OccursAtEnd(t.preamble, QueryLine(t, q));
    OccursExtend(QueryLine(t, q), t.preamble + QueryLine(t, q), |t.preamble|, ModeLine(t, mode));
    OccursExtend(QueryLine(t, q), t.preamble + QueryLine(t, q) + ModeLine(t, mode), |t.preamble|, t.taskHead);
  }

  /** The head opens the prompt. */
  lemma HeadInRender(t: Template, q: string, mode: string, n: nat)
    ensures OccursAt(Head(t, q, mode), Render(t, q, mode, n), 0)
  {
    OccursAtStart(Head(t, q, mode), CountInstruction(t, q, mode, n));
    OccursExtend(Head(t, q, mode), Head(t, q, mode) + CountInstruction(t, q, mode, n), 0, Tail(t));
  }

  /** The query line sits in the prompt, right after the preamble. */
  lemma QueryLineInRender(t: Template, q: string, mode: string, n: nat)
    ensures OccursAt(QueryLine(t, q), Render(t, q, mode, n), |t.preamble|)
  {
    QueryLineInHead(t, q, mode);
    HeadInRender(t, q, mode, n);
    OccursWithin(QueryLine(t, q), Head(t, q, mode), Render(t, q, mode, n), 0, |t.preamble|);
  }

  /** `QUERY_FANOUT_PROMPT(q, mode)`: the source's own fixed text with the
      minimum that the mode selects. It always starts with the fixed preamble. */
  function QueryFanoutPrompt(q: string, mode: string): (r: string)
    ensures Qforia.preamble <= r
  {
    RenderStartsWithPreamble(Qforia, q, mode, MinQueries(mode));
    Render(Qforia, q, mode, MinQueries(mode))
  }

  lemma RenderStartsWithPreamble(t: Template, q: string, mode: string, n: nat)
    ensures t.preamble <= Render(t, q, mode, n)
  {
    var rest := QueryLine(t, q) + ModeLine(t, mode) + t.taskHead + CountInstruction(t, q, mode, n) + Tail(t);
    assert Render(t, q, mode, n) == t.preamble + rest;
  }

  lemma RenderEndsWithSchema(t: Template, q: string, mode: string, n: nat)
    ensures EndsWith(Render(t, q, mode, n), t.schema)
  {
    var a := Head(t, q, mode) + CountInstruction(t, q, mode, n);
    assert Render(t, q, mode, n) == a + t.taskTail + t.schema;
    EndsWithConcat(a + t.taskTail, t.schema);
  }

  /** Every prompt closes with the fixed schema block, independent of q and mode. */
  lemma PromptEndsWithSchema(q: string, mode: string)
    ensures EndsWith(QueryFanoutPrompt(q, mode), Qforia.schema)
  {
    RenderEndsWithSchema(Qforia, q, mode, MinQueries(mode));
  }

  /** The length depends on the minimum only through its number of digits. */
  lemma RenderLength(t: Template, q: string, mode: string, n: nat, m: nat)
    requires |Decimal(n)| == |Decimal(m)|
    ensures |Render(t, q, mode, n)| == |Render(t, "", "", m)| + 2 * |q| + 2 * |mode|
  {
  }

  /** The number of prompt characters that do not come from q or mode. */
  function FixedLength(): nat { |QueryFanoutPrompt("", "")| }

  /** Apart from two verbatim copies of q and two of mode, every character
      of the prompt is fixed. */
  lemma PromptLength(q: string, mode: string)
    ensures |QueryFanoutPrompt(q, mode)| == FixedLength() + 2 * |q| + 2 * |mode|
  {
    DecimalOfMinimum(mode);
    DecimalOfMinimum("");
    RenderLength(Qforia, q, mode, MinQueries(mode), MinQueries(""));
  }

  lemma RenderQueryAndModeLines(t: Template, q: string, mode: string, n: nat)
    ensures OccursAt(QueryLine(t, q) + ModeLine(t, mode), Render(t, q, mode, n), |t.preamble|)
  {
    var lines := QueryLine(t, q) + ModeLine(t, mode);
    var rest := t.taskHead + CountInstruction(t, q, mode, n) + Tail(t);
    assert Render(t, q, mode, n) == t.preamble + lines + rest;
    OccursBetween(t.preamble, lines, rest);
  }

  /** Right after the preamble the prompt holds the line `User Query: "<q>"`
      followed by the line `Mode: "<mode>"`, both inserted verbatim. */
  lemma PromptQueryAndModeLines(q: string, mode: string)
    ensures OccursAt(QueryLine(Qforia, q) + ModeLine(Qforia, mode), QueryFanoutPrompt(q, mode), |Qforia.preamble|)
  {
    RenderQueryAndModeLines(Qforia, q, mode, MinQueries(mode));
  }

  lemma RenderQuotesQueryFirst(t: Template, q: string, mode: string, n: nat)
    ensures OccursAt(q, Render(t, q, mode, n), |t.preamble| + |t.queryOpen|)
  {
    QueryLineInRender(t, q, mode, n);
    OccursBetween(t.queryOpen, q, t.queryClose);
    OccursWithin(q, QueryLine(t, q), Render(t, q, mode, n), |t.preamble|, |t.queryOpen|);
  }

  lemma RenderQuotesQuerySecond(t: Template, q: string, mode: string, n: nat)
    ensures OccursAt(q, Render(t, q, mode, n), |Head(t, q, mode)| + |t.queryIntro|)
  {
    var i := |t.queryIntro|;
    OccursAtEnd(t.queryIntro, q);
    OccursExtend(q, t.queryIntro + q, i, t.modeIntro);
    OccursExtend(q, t.queryIntro + q + t.modeIntro, i, mode);
    OccursExtend(q, t.queryIntro + q + t.modeIntro + mode, i, t.modeOutro);
    OccursExtend(q, t.queryIntro + q + t.modeIntro + mode + t.modeOutro, i, ThresholdClause(t, n));
    OccursBetween(Head(t, q, mode), CountInstruction(t, q, mode, n), Tail(t));
    OccursWithin(q, CountInstruction(t, q, mode, n), Render(t, q, mode, n), |Head(t, q, mode)|, i);
  }

  /** Offset of the query inside the `User Query` line. */
  function FirstQueryAt(): nat { |Qforia.preamble| + |Qforia.queryOpen| }

  /** Offset of the query inside the count instruction. */
  function SecondQueryAt(q: string, mode: string): nat { |Head(Qforia, q, mode)| + |Qforia.queryIntro| }

  /** The query is quoted twice, unescaped: once on its own line and once
      more inside the count instruction, the two copies not overlapping. */
  lemma PromptQuotesQueryTwice(q: string, mode: string)
    ensures OccursAt(q, QueryFanoutPrompt(q, mode), FirstQueryAt())
    ensures OccursAt(q, QueryFanoutPrompt(q, mode), SecondQueryAt(q, mode))
    ensures FirstQueryAt() + |q| < SecondQueryAt(q, mode)
  {
    RenderQuotesQueryFirst(Qforia, q, mode, MinQueries(mode));
    RenderQuotesQuerySecond(Qforia, q, mode, MinQueries(mode));
  }

  /** The mode line sits in the head, right after the query line. */
  lemma ModeLineInHead(t: Template, q: string, mode: string)
    ensures OccursAt(ModeLine(t, mode), Head(t, q, mode), |t.preamble| + |QueryLine(t, q)|)
  {
    OccursAtEnd(t.preamble + QueryLine(t, q), ModeLine(t, mode));
    OccursExtend(ModeLine(t, mode), t.preamble + QueryLine(t, q) + ModeLine(t, mode), |t.preamble| + |QueryLine(t, q)|, t.taskHead);
  }

  lemma RenderQuotesModeFirst(t: Template, q: string, mode: string, n: nat)
    ensures OccursAt(mode, Render(t, q, mode, n), |t.preamble| + |QueryLine(t, q)| + |t.modeOpen|)
  {
    var i := |t.preamble| + |QueryLine(t, q)|;
    ModeLineInHead(t, q, mode);
    HeadInRender(t, q, mode, n);
    OccursWithin(ModeLine(t, mode), Head(t, q, mode), Render(t, q, mode, n), 0, i);
    OccursBetween(t.modeOpen, mode, t.modeClose);
    OccursWithin(mode, ModeLine(t, mode), Render(t, q, mode, n), i, |t.modeOpen|);
  }

  lemma RenderQuotesModeSecond(t: Template, q: string, mode: string, n: nat)
    ensures OccursAt(mode, Render(t, q, mode, n), |Head(t, q, mode)| + |t.queryIntro| + |q| + |t.modeIntro|)
  {
    var i := |t.queryIntro| + |q| + |t.modeIntro|;
    OccursAtEnd(t.queryIntro + q + t.modeIntro, mode);
    OccursExtend(mode, t.queryIntro + q + t.modeIntro + mode, i, t.modeOutro);
    OccursExtend(mode, t.queryIntro + q + t.modeIntro + mode + t.modeOutro, i, ThresholdClause(t, n));
    OccursBetween(Head(t, q, mode), CountInstruction(t, q, mode, n), Tail(t));
    OccursWithin(mode, CountInstruction(t, q, mode, n), Render(t, q, mode, n), |Head(t, q, mode)|, i);
  }

  /** Offset of the mode inside the `Mode` line. */
  function FirstModeAt(t: Template, q: string): nat { |t.preamble| + |QueryLine(t, q)| + |t.modeOpen| }

  /** Offset of the mode inside the count instruction. */
  function SecondModeAt(t: Template, q: string, mode: string): nat
  {
    |Head(t, q, mode)| + |t.queryIntro| + |q| + |t.modeIntro|
  }

  lemma RenderQuotesModeTwice(t: Template, q: string, mode: string, n: nat)
    requires t.modeClose != []
    ensures OccursAt(mode, Render(t, q, mode, n), FirstModeAt(t, q))
    ensures OccursAt(mode, Render(t, q, mode, n), SecondModeAt(t, q, mode))
    ensures FirstModeAt(t, q) + |mode| < SecondModeAt(t, q, mode)
  {
    RenderQuotesModeFirst(t, q, mode, n);
    RenderQuotesModeSecond(t, q, mode, n);
  }

  lemma ModeLineClosesWithText()
    ensures Qforia.modeClose != []
  {
  }

  /** The mode is quoted twice, unescaped: once on its own line and once
      more inside the count instruction, the two copies not overlapping. */
  lemma PromptQuotesModeTwice(q: string, mode: string)
    ensures OccursAt(mode, QueryFanoutPrompt(q, mode), FirstModeAt(Qforia, q))
    ensures OccursAt(mode, QueryFanoutPrompt(q, mode), SecondModeAt(Qforia, q, mode))
    ensures FirstModeAt(Qforia, q) + |mode| < SecondModeAt(Qforia, q, mode)
  {
    ModeLineClosesWithText();
    RenderQuotesModeTwice(Qforia, q, mode, MinQueries(mode));
  }

  /** What closes the prompt when the minimum is `n`. */
  function ThresholdEnding(t: Template, n: nat): string { ThresholdClause(t, n) + Tail(t) }

  lemma RenderEndsWithThreshold(t: Template, q: string, mode: string, n: nat)
    ensures EndsWith(Render(t, q, mode, n), ThresholdEnding(t, n))
  {
    var tc := ThresholdClause(t, n);
    EndsWithConcat(t.queryIntro + q + t.modeIntro + mode + t.modeOutro, tc);
    EndsWithPrepend(Head(t, q, mode), CountInstruction(t, q, mode, n), tc);
    EndsWithExtend(Head(t, q, mode) + CountInstruction(t, q, mode, n), tc, Tail(t));
  }

  /** Every prompt closes with the minimum sentence for its own mode,
      followed by the fixed task and schema text. */
  lemma PromptEndsWithThreshold(q: string, mode: string)
    ensures EndsWith(QueryFanoutPrompt(q, mode), ThresholdEnding(Qforia, MinQueries(mode)))
  {
    RenderEndsWithThreshold(Qforia, q, mode, MinQueries(mode));
  }

  /** No text ends with both the "at least 10" and the "at least 20" closing:
      the two have the same length and differ in the first digit. */
  lemma ThresholdEndingsExclude(t: Template, s: string)
    ensures !(EndsWith(s, ThresholdEnding(t, MinQueriesSimple)) && EndsWith(s, ThresholdEnding(t, MinQueriesComplex)))
  {
    assert Decimal(1) == "1" && Decimal(2) == "2";
    var ten := ThresholdEnding(t, MinQueriesSimple);
    var twenty := ThresholdEnding(t, MinQueriesComplex);
    var at := |t.thresholdOpen|;
    assert |ten| == |twenty|;
    assert ten[at] == '1' && twenty[at] == '2';
  }

  /** The prompt asks for at least 10 queries exactly when the mode is the
      simple one, and for at least 20 for every other mode string. Stated on
      the closing text, so a query that itself mentions a number cannot
      confuse it. */
  lemma PromptMinimumByMode(q: string, mode: string)
    ensures EndsWith(QueryFanoutPrompt(q, mode), ThresholdEnding(Qforia, MinQueriesSimple)) <==> mode == SimpleMode
    ensures EndsWith(QueryFanoutPrompt(q, mode), ThresholdEnding(Qforia, MinQueriesComplex)) <==> mode != SimpleMode
  {
    RenderEndsWithThreshold(Qforia, q, mode, MinQueries(mode));
    ThresholdEndingsExclude(Qforia, QueryFanoutPrompt(q, mode));
  }

  /** The two modes the page offers: the simple one asks for at least 10
      queries and the complex one for at least 20, and not the other. */
  lemma OfferedModesMinimum(q: string)
    ensures EndsWith(QueryFanoutPrompt(q, SimpleMode), ThresholdEnding(Qforia, MinQueriesSimple))
    ensures !EndsWith(QueryFanoutPrompt(q, SimpleMode), ThresholdEnding(Qforia, MinQueriesComplex))
    ensures EndsWith(QueryFanoutPrompt(q, ComplexMode), ThresholdEnding(Qforia, MinQueriesComplex))
    ensures !EndsWith(QueryFanoutPrompt(q, ComplexMode), ThresholdEnding(Qforia, MinQueriesSimple))
  {
    PromptMinimumByMode(q, SimpleMode);
    PromptMinimumByMode(q, ComplexMode);
  }

  /** The prefix of `s` before the first `c`, or all of `s` without one. */
  function TakeUntil(c: char, s: string): (r: string)
    ensures r <= s
  {
    if s == [] || s[0] == c then [] else [s[0]] + TakeUntil(c, s[1..])
  }

  lemma {:induction false} TakeUntilStopsAtFirst(c: char, s: string, rest: string)
    requires c !in s
    ensures TakeUntil(c, s + [c] + rest) == s
  {
    if s != [] {
      assert (s + [c] + rest)[1..] == s[1..] + [c] + rest;
      TakeUntilStopsAtFirst(c, s[1..], rest);
    }
  }

  lemma {:induction false} TakeUntilCutsShort(c: char, s: string, rest: string)
    requires c in s
    ensures |TakeUntil(c, s + rest)| < |s|
  {
    if s[0] != c {
      assert (s + rest)[1..] == s[1..] + rest;
      TakeUntilCutsShort(c, s[1..], rest);
    }
  }

  /** How a reader of a prompt would take the query back out: the text after
      the preamble and `User Query: "` up to the next double quote. */
  function QuotedQuery(t: Template, prompt: string): Option<string>
  {
    var start := |t.preamble + t.queryOpen|;
    if t.preamble + t.queryOpen <= prompt then Some(TakeUntil('"', prompt[start..])) else None
  }

  /** Reading a text that holds q right after the opening and a double quote
      right after q gives back q exactly when q holds no double quote. */
  lemma {:induction false} QuotedQueryOf(t: Template, r: string, q: string)
    requires t.preamble + t.queryOpen <= r
    requires OccursAt(q, r, |t.preamble + t.queryOpen|)
    requires |t.preamble + t.queryOpen| + |q| < |r| && r[|t.preamble + t.queryOpen| + |q|] == '"'
    ensures QuotedQuery(t, r) == Some(q) <==> '"' !in q
  {
    var start := |t.preamble + t.queryOpen|;
    var after := r[start + |q| + 1..];
    assert r[start..] == q + ['"'] + after;
    if '"' !in q {
      TakeUntilStopsAtFirst('"', q, after);
    } else {
      TakeUntilCutsShort('"', q, ['"'] + after);
      assert q + ['"'] + after == q + (['"'] + after);
    }
  }

  lemma RenderReadsQueryThenClose(t: Template, q: string, mode: string, n: nat)
    requires t.queryClose != []
    ensures t.preamble + t.queryOpen <= Render(t, q, mode, n)
    ensures |t.preamble + t.queryOpen| + |q| < |Render(t, q, mode, n)|
    ensures Render(t, q, mode, n)[|t.preamble + t.queryOpen| + |q|] == t.queryClose[0]
  {
    var r := Render(t, q, mode, n);
    var i := |t.preamble|;
    var j := i + |t.queryOpen| + |q|;
    QueryLineInRender(t, q, mode, n);
    Regroup(t.queryOpen, q, t.queryClose);
    OccursPrefix(t.queryOpen, q + t.queryClose, r, i);
    RenderStartsWithPreamble(t, q, mode, n);
    PrefixThenOccurs(r, t.preamble, t.queryOpen);
    OccursAtEnd(t.queryOpen + q, t.queryClose);
    OccursWithin(t.queryClose, QueryLine(t, q), r, i, |t.queryOpen| + |q|);
    assert r[j] == r[j..j + |t.queryClose|][0];
  }

  /** For any fixed text whose query line closes with a double quote. */
  lemma RenderQuotedQueryRecoversQuery(t: Template, q: string, mode: string, n: nat)
    requires t.queryClose != [] && t.queryClose[0] == '"'
    ensures QuotedQuery(t, Render(t, q, mode, n)) == Some(q) <==> '"' !in q
  {
    RenderReadsQueryThenClose(t, q, mode, n);
    RenderQuotesQueryFirst(t, q, mode, n);
    QuotedQueryOf(t, Render(t, q, mode, n), q);
  }

  lemma QueryLineClosesWithQuote()
    ensures Qforia.queryClose != [] && Qforia.queryClose[0] == '"'
  {
  }

  /** Because q goes in unescaped, the `User Query` line gives it back
      exactly when q holds no double quote. */
  lemma PromptQuotedQueryRecoversQuery(q: string, mode: string)
    ensures QuotedQuery(Qforia, QueryFanoutPrompt(q, mode)) == Some(q) <==> '"' !in q
  {
    QueryLineClosesWithQuote();
    RenderQuotedQueryRecoversQuery(Qforia, q, mode, MinQueries(mode));
  }
}
