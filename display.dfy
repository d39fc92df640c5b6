/** The results block: read `generation_details` and `expanded_queries` from
    the stored result with defaults, report the target count (default 'N/A'),
    the reasoning (default 'N/A') and the actual count `len(queries)`, then
    show the queries as a table, or a warning when there are none. */
module Display {
  import opened PyValues

  /** Why the block raises before it can report: `.get` on a value that is
      not a dict, or `len` of a value that has no length. */
  datatype DisplayError = DataNotADict | DetailsNotADict | QueriesHaveNoLength

  /** What follows the counts: the rows of the table, the warning that the
      list was empty, or a value that is not a list at all. */
  datatype QueryView = Rows(rows: seq<Json>) | EmptyWarning | NotAList

  datatype Summary = Summary(target: Json, reasoning: Json, actual: nat, view: QueryView)

  const DetailsKey: string := "generation_details"
  const QueriesKey: string := "expanded_queries"
  const TargetKey: string := "target_query_count"
  const ReasoningKey: string := "reasoning_for_count"

  /** The placeholder shown for a missing target or reasoning. */
  const NotAvailable: Json := JStr("N/A")

  /** `pd.DataFrame(queries)` followed by the `df.empty` test, for a list. */
  function ViewOf(queries: Json): (v: QueryView)
    ensures queries.JArr? && queries.items != [] <==> v.Rows?
    ensures v.Rows? ==> v.rows == queries.items
    ensures v.EmptyWarning? <==> queries == JArr([])
  {
    match queries
    case JArr(items) => if items == [] then EmptyWarning else Rows(items)
    case _ => NotAList
  }

  /** The summary of a stored result `data`. */
  function Summarize(data: Json): (r: Result<Summary, DisplayError>)
    ensures r.Ok? ==> data.JObj?
    ensures r.Ok? && r.value.view.Rows? ==> |r.value.view.rows| == r.value.actual > 0
    ensures r.Ok? && r.value.view.EmptyWarning? ==> r.value.actual == 0
  {
    match data
    case JObj(fields) =>
      var details := Get(fields, DetailsKey, JObj(map[]));
      var queries := Get(fields, QueriesKey, JArr([]));
      (match details
       case JObj(detailFields) =>
         var target := Get(detailFields, TargetKey, NotAvailable);
         var reasoning := Get(detailFields, ReasoningKey, NotAvailable);
         (match Len(queries)
          case Some(actual) => Ok(Summary(target, reasoning, actual, ViewOf(queries)))
          case None => Err(QueriesHaveNoLength))
       case _ => Err(DetailsNotADict))
    case _ => Err(DataNotADict)
  }

  /** For any dict that does not make the block raise, whatever other keys it
      holds: target and reasoning are `details.get(key, 'N/A')` with details
      defaulting to `{}`, and for a list of queries (default `[]`) the actual
      count is its length and the view is the warning for the empty list and
      the table of exactly its rows otherwise. */
  lemma SummaryOfAnyResult(fields: map<string, Json>)
    requires DetailsKey in fields ==> fields[DetailsKey].JObj?
    requires QueriesKey in fields ==> Len(fields[QueriesKey]).Some?
    ensures var details := if DetailsKey in fields then fields[DetailsKey].fields else map[];
      var queries := if QueriesKey in fields then fields[QueriesKey] else JArr([]);
      var r := Summarize(JObj(fields));
      r.Ok? &&
      r.value.target == (if TargetKey in details then details[TargetKey] else NotAvailable) &&
      r.value.reasoning == (if ReasoningKey in details then details[ReasoningKey] else NotAvailable) &&
      (queries.JArr? ==>
        r.value.actual == |queries.items| &&
        r.value.view == if queries.items == [] then EmptyWarning else Rows(queries.items))
  {
  }

  /** A result shaped as the prompt asks, whatever its target count and
      however many queries it holds. */
  function Document(target: Json, reasoning: Json, queries: seq<Json>): Json
  {
    JObj(map[DetailsKey := JObj(map[TargetKey := target, ReasoningKey := reasoning]),
             QueriesKey := JArr(queries)])
  }

  /** The actual count is the length of the list, and the target is reported
      as given, independently of each other: a target of 20 with 5 queries is
      shown as it is, not rejected. An empty list gives the warning, any
      other the table of exactly those rows, in order. */
  lemma SummaryOfDocument(target: Json, reasoning: Json, queries: seq<Json>)
    ensures var r := Summarize(Document(target, reasoning, queries));
      r.Ok? && r.value.target == target && r.value.reasoning == reasoning &&
      r.value.actual == |queries| &&
      r.value.view == if queries == [] then EmptyWarning else Rows(queries)
  {
  }

  /** Missing keys take their defaults: no `generation_details` gives 'N/A'
      for target and reasoning, no `expanded_queries` gives a count of 0 and
      the warning. */
  lemma SummaryDefaults(fields: map<string, Json>)
    requires DetailsKey !in fields && QueriesKey !in fields
    ensures Summarize(JObj(fields)) == Ok(Summary(NotAvailable, NotAvailable, 0, EmptyWarning))
  {
  }

  /** The block fails exactly in the three ways Python raises: `data` is not
      a dict, `generation_details` is present but not a dict, or
      `expanded_queries` is present with a value `len` rejects. */
  lemma SummarizeFailsOnlyWhenPythonRaises(data: Json)
    ensures Summarize(data).Err? <==>
      !data.JObj? ||
      (DetailsKey in data.fields && !data.fields[DetailsKey].JObj?) ||
      (QueriesKey in data.fields && Len(data.fields[QueriesKey]).None?)
    ensures Summarize(data) == Err(DataNotADict) <==> !data.JObj?
  {
  }
}
