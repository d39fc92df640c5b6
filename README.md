# Qforia query fan-out dashboard: a Dafny model of its core

Qforia is a Streamlit page. It takes a search query and a mode, asks a hosted
Gemini model to "fan out" the query into many synthetic queries returned as
JSON, and shows the result. Apart from widgets and the network, the script
holds three pieces of logic. This project models each one and proves what
it promises:

- **The prompt template** `QUERY_FANOUT_PROMPT(q, mode)`, module `Prompting`.
  It is a pure string function over `seq<char>`. It asks for at least 10
  queries for the exact mode string `"AI Overview (simple)"` and at least 20
  for any other string. The query and the mode go in verbatim and unescaped.
  The prompt always starts with the same preamble and ends with the same
  JSON-schema block.
- **Generation and the run button**, modules `Generation` and `Actions`.
  `generate_fanout` returns `None` when the key is missing, when the model
  call raises and when `json.loads` raises. The hosted model is a parameter
  `service: (model id, prompt) -> CallOutcome` and the parser is a parameter
  `parse: string -> Option<Json>`. Nothing is assumed about either. The
  session slot `st.session_state.data` is the field of class
  `Actions.Session`. `Run` clears the slot, then refuses a query that is blank
  after `strip()`, then refuses an empty key. Otherwise it generates and
  stores the result only if the result is truthy. `Rerun` is one execution of
  the script, with or without a click.
- **The results block**, module `Display`. It reads `generation_details` and
  `expanded_queries` with the defaults `{}` and `[]`. The target and the
  reasoning default to `'N/A'`. The actual count is `len(queries)`, and an
  empty list gives a warning instead of a table. The block raises where
  Python raises: `.get` on a value that is not a dict, or `len` of a value
  that has none.

Module `PyValues` holds the Python-level pieces these need. `Json` is what
`json.loads` returns. It also gives truthiness, `len`, `dict.get` and
`str.strip()`, with the exact whitespace set of `str.isspace`.

A few facts about `qforia.py` shape the model:

- `json.loads` is applied to `response.text` directly, and every exception on
  the way becomes `None`.
- `QUERY_FANOUT_PROMPT` accepts any mode string. Every value other than
  `"AI Overview (simple)"` gets the minimum of 20.
- `QUERY_FANOUT_PROMPT` accepts any query, a blank one included. Only the
  run button refuses a blank query.
- Nothing checks that `target_query_count` is a non-negative integer, or
  that it matches the number of queries returned.

## Model

| member | source | states |
|---|---|---|
| PyValues.Len | streamlit/qforia.py:178 | `len` is defined exactly on strings, lists and dicts, and is positive exactly when the value is truthy |
| PyValues.FalsyExactlyTheListedValues | streamlit/qforia.py:166-171 | `Truthy`, the test of `if result_data:` and `if st.session_state.data:`, fails exactly for None, False, 0, 0.0 and the empty string, list and dict |
| PyValues.Get | streamlit/qforia.py:173-177 | `dict.get` gives the stored value for a present key and the default for an absent one |
| PyValues.IsSpaceExactlyPythonWhitespace | streamlit/qforia.py:158 | `IsSpace`, the class `strip()` removes, accepts exactly the 29 characters `str.isspace()` accepts, listed one by one |
| PyValues.TrimStart | streamlit/qforia.py:158 | for any character class, the result is a suffix of the input, every dropped character is in the class, and the result does not start with one |
| PyValues.TrimEnd | streamlit/qforia.py:158 | for any character class, the result is a prefix of the input, every dropped character is in the class, and the result does not end with one |
| PyValues.TrimBothEmptyIffAllIn | streamlit/qforia.py:158 | trimming both ends leaves nothing exactly when every character of the input is in the class |
| PyValues.StripChars | streamlit/qforia.py:158 | `s.strip(chars)` is empty exactly when every character is in the class; otherwise it starts and ends outside the class |
| PyValues.Strip | streamlit/qforia.py:158 | `query.strip()` is empty exactly when every character is whitespace; otherwise it starts and ends with a non-whitespace character |
| Prompting.MinQueries | streamlit/qforia.py:78-92 | the minimum is 10 iff the mode is exactly "AI Overview (simple)", and 20 for every other string |
| Prompting.Decimal | streamlit/qforia.py:85 | the f-string rendering of the count is a non-empty run of digits without a leading zero |
| Prompting.DecimalRoundTrip | streamlit/qforia.py:85 | reading the rendered digits back gives the count: the number printed is the minimum itself |
| Prompting.DecimalOfMinimum | streamlit/qforia.py:78-91 | the minimum is printed as "10" for the simple mode and as "20" otherwise |
| Prompting.QueryFanoutPrompt | streamlit/qforia.py:94-95 | every prompt starts with the fixed preamble "You are simulating Google's AI Mode query fan-out process.\n" |
| Prompting.PromptEndsWithSchema | streamlit/qforia.py:101-116 | every prompt ends with the fixed JSON-schema block naming generation_details and expanded_queries, whatever q and mode are |
| Prompting.PromptLength | streamlit/qforia.py:77-117 | the prompt's length is a fixed number plus twice the length of q and twice the length of mode: nothing else in it varies |
| Prompting.PromptQueryAndModeLines | streamlit/qforia.py:96 | right after the preamble come the line `User Query: "<q>"` and then the line `Mode: "<mode>"`, both verbatim |
| Prompting.PromptQuotesQueryTwice | streamlit/qforia.py:83-96 | q appears verbatim on the `User Query` line and again inside the count instruction, and the two copies do not overlap |
| Prompting.PromptQuotesModeTwice | streamlit/qforia.py:83-96 | mode appears verbatim on the `Mode` line and again quoted inside the count instruction, and the two copies do not overlap |
| Prompting.ThresholdEndingsExclude | streamlit/qforia.py:85-91 | no text can end both with the "at least 10" closing and with the "at least 20" closing |
| Prompting.PromptEndsWithThreshold | streamlit/qforia.py:78-116 | every prompt ends with the minimum sentence for its own mode, followed by the fixed task and schema text |
| Prompting.PromptMinimumByMode | streamlit/qforia.py:78-98 | the prompt asks for "at least 10" iff mode is "AI Overview (simple)", and for "at least 20" iff it is not; a number written in the query cannot change this |
| Prompting.OfferedModesMinimum | streamlit/qforia.py:78-92 | the simple mode asks for at least 10 and not 20; "AI Mode (complex)" asks for at least 20 and not 10 |
| Prompting.PromptQuotedQueryRecoversQuery | streamlit/qforia.py:96 | reading the `User Query` line up to the next double quote gives back q iff q holds no double quote, because q is inserted unescaped |
| Generation.GenerateFanout | streamlit/qforia.py:120-148 | None without a key or when the model call raises; otherwise exactly what parsing the reply text yields, which is None when parsing raises |
| Generation.OnlyTheFanoutPromptIsSent | streamlit/qforia.py:125-141 | the result depends on the hosted model only through its answer to this model id and exactly QUERY_FANOUT_PROMPT(query, mode) |
| Display.ViewOf | streamlit/qforia.py:191-207 | a non-empty list gives a table of exactly its rows, in order; the empty list gives the warning |
| Display.Summarize | streamlit/qforia.py:171-178 | a summary exists only for a dict; the table has `actual` rows and the warning goes with an actual count of 0 |
| Display.SummaryOfDocument | streamlit/qforia.py:173-178 | for a result in the prompted shape, the target and reasoning are reported as given and the actual count is the list length, independently, so 20 against 5 is not an error |
| Display.SummaryDefaults | streamlit/qforia.py:173-177 | without `generation_details` and `expanded_queries`, target and reasoning are 'N/A', the count is 0, and the warning is shown |
| Display.SummarizeFailsOnlyWhenPythonRaises | streamlit/qforia.py:172-178 | the block fails exactly when data is not a dict, when generation_details is present but not a dict, or when expanded_queries is present with no `len` |
| Display.SummaryOfAnyResult | streamlit/qforia.py:172-207 | for every dict that does not make the block raise, whatever other keys it holds: target and reasoning are `details.get(key, 'N/A')` with details defaulting to `{}`; for a list of queries (default `[]`) the actual count is its length, and the view is the warning for the empty list and the table of exactly its rows otherwise |
| Actions.Decide | streamlit/qforia.py:155-164 | a blank query is refused first, then an empty key; otherwise generate_fanout runs with the same arguments |
| Actions.SlotAfter | streamlit/qforia.py:156-167 | after a click the slot holds a value iff generation returned a truthy one, and then holds that value |
| Actions.FailedRunClearsSlot | streamlit/qforia.py:121-167 | a blank query, a missing key, a model error or a parse error leaves the slot None, whatever it held before |
| Actions.StoredExactlyWhenGenerationSucceeds | streamlit/qforia.py:120-167 | a click stores a value iff the query is not blank, a key is given, the model replies, and the reply parses to a truthy value; that parsed value is what is stored |
| Actions.Session.constructor | streamlit/qforia.py:151-152 | the session starts with an empty slot |
| Actions.Session.Run | streamlit/qforia.py:155-167 | the click's branch is `Decide`, and the new slot is `SlotAfter` of it, so it never depends on the old slot; the slot holds only truthy values |
| Actions.Session.View | streamlit/qforia.py:171-178 | the results block is shown iff the slot is truthy, and it shows the summary of the stored value |
| Actions.Session.ViewShowsEveryStoredResult | streamlit/qforia.py:166-171 | every stored value passes the results block's truthiness test |
| Actions.Session.Rerun | streamlit/qforia.py:150-171 | without a click the slot is unchanged; with one it is the click's new slot; the results shown are those of the slot afterwards |

The prompt is built in two layers. `Prompting.Template` holds the fixed text
pieces of the two f-strings, and the constant `Qforia` holds exactly the
source's text. `Render(t, q, mode, n)` assembles any template around q, mode
and a minimum n. `QueryFanoutPrompt(q, mode)` is `Render(Qforia, q, mode,
MinQueries(mode))`. The `Render...` lemmas are proved for every template and
minimum, and the `Prompt...` lemmas apply them to `Qforia`.

`QueryFanoutPrompt` is a Dafny function of `(q, mode)`. It reads no
globals, clock or randomness, so equal inputs give equal prompts by
construction, and no lemma is needed for that.

## Left out

- Page configuration, the sidebar widgets, the info box, the metrics, the
  dataframe column settings, the spinner, and the success, warning and error
  texts (lines 7-8, 41-70, 122, 145-147, 159-168, 180-205). These are
  presentation in a framework that is not part of this model. `RunOutcome`
  only records which branch a click took.
- `MODEL_CATALOG` and the choice of model id, including the custom id (lines
  12-66). It is a constant table read through widgets. The model id is a
  plain parameter.
- `genai.configure`, `GenerativeModel`, `generate_content` and its settings
  (`temperature=0.7`, JSON mime type) (lines 73-74, 129-138). These are
  network calls into a foreign library. They become the parameter `service`,
  which may reply with any text or raise.
- `json.loads` (line 141). It is a library parser, so it becomes the parameter
  `parse`. Floats are modelled as `real`, so `NaN`, `Infinity` and lone
  surrogate code points in strings are not represented.
- The CSV encoding and download button (lines 204-205). This is library
  serialisation.
- Display.ViewOf: every non-empty list counts as a non-empty table. pandas
  also reports an empty frame for a list whose elements give no columns,
  such as `[{}]`. For a non-list `expanded_queries` (a string or a dict), the
  model stops at `NotAList` instead of following what `pd.DataFrame` builds
  or raises.
- Concurrency between browser sessions. Each `Session` object is one user's
  session state.
