/** The run button and the one-slot session state `st.session_state.data`.
    Every click first clears the slot; a blank query and then a missing key
    are refused; otherwise `generate_fanout` runs and the slot takes its
    result only when that result is truthy. Streamlit re-executes the whole
    script on every interaction, so a rerun without a click leaves the slot
    as it was and shows it again. */
module Actions {
  import opened PyValues
  import opened Generation
  import opened Display

  /** Which branch a click takes. */
  datatype RunOutcome =
    | BlankQuery                      // "Please enter a query."
    | MissingKey                      // "Please enter your API Key."
    | Generated(result: Option<Json>) // generate_fanout ran and returned `result`

  /** The branch taken for a click. The query is tested with `strip()`; the
      key only for emptiness, so a key of spaces goes through. */
  function Decide(query: string, mode: string, modelId: string, key: string,
                  service: Service, parse: Parser): (o: RunOutcome)
    ensures o == BlankQuery <==> IsBlank(query)
    ensures o == MissingKey <==> !IsBlank(query) && key == []
    ensures o.Generated? <==> !IsBlank(query) && key != []
    ensures o.Generated? ==> o.result == GenerateFanout(query, mode, modelId, key, service, parse)
  {
    if Strip(query) == [] then BlankQuery
    else if key == [] then MissingKey
    else Generated(GenerateFanout(query, mode, modelId, key, service, parse))
  }

  /** The slot after a click: the generated value if it is truthy, None in
      every other case, whatever the slot held before. */
  function SlotAfter(o: RunOutcome): (slot: Option<Json>)
    ensures slot.Some? <==> o.Generated? && TruthyOpt(o.result)
    ensures slot.Some? ==> slot == o.result
  {
    if o.Generated? && TruthyOpt(o.result) then o.result else None
  }

  /** A refused click, or a generation that fails at any step, leaves the
      slot empty: an earlier result is never shown after a new click. */
  lemma FailedRunClearsSlot(query: string, mode: string, modelId: string, key: string,
                            service: Service, parse: Parser)
    requires IsBlank(query) || key == [] ||
             service(modelId, Prompting.QueryFanoutPrompt(query, mode)).Raised? ||
             parse(service(modelId, Prompting.QueryFanoutPrompt(query, mode)).text).None?
    ensures SlotAfter(Decide(query, mode, modelId, key, service, parse)) == None
  {
  }

  /** A click stores a value exactly when the query is not blank, a key is
      given, the model replies, and the reply parses to a truthy value; the
      value stored is that parsed value. */
  lemma StoredExactlyWhenGenerationSucceeds(query: string, mode: string, modelId: string, key: string,
                                            service: Service, parse: Parser)
    ensures var prompt := Prompting.QueryFanoutPrompt(query, mode);
      var slot := SlotAfter(Decide(query, mode, modelId, key, service, parse));
      slot.Some? <==>
        !IsBlank(query) && key != [] && service(modelId, prompt).Reply? &&
        TruthyOpt(parse(service(modelId, prompt).text))
    ensures var prompt := Prompting.QueryFanoutPrompt(query, mode);
      var slot := SlotAfter(Decide(query, mode, modelId, key, service, parse));
      slot.Some? ==> slot == parse(service(modelId, prompt).text)
  {
  }

  /** `st.session_state`, reduced to the one key this script keeps. */
  class Session {
    var data: Option<Json>

    /** What the slot may hold: nothing, or a truthy result. */
    ghost predicate Valid()
      reads this
    {
      data == None || Truthy(data.value)
    }

    /** `if 'data' not in st.session_state: st.session_state.data = None`. */
    constructor ()
      ensures Valid() && data == None
    {
      data := None;
    }

    /** The click on "Run Fan-Out": clear the slot, then check and generate. */
    method Run(query: string, mode: string, modelId: string, key: string,
               service: Service, parse: Parser) returns (outcome: RunOutcome)
      modifies this
      ensures Valid()
      ensures outcome == Decide(query, mode, modelId, key, service, parse)
      ensures data == SlotAfter(outcome)
    {
      data := None;
      if Strip(query) == [] {
        outcome := BlankQuery;
      } else if key == [] {
        outcome := MissingKey;
      } else {
        var resultData := GenerateFanout(query, mode, modelId, key, service, parse);
        outcome := Generated(resultData);
        if TruthyOpt(resultData) {
          data := resultData;
        }
      }
    }

    /** The results block, shown only while the slot holds a truthy value. */
    function View(): (v: Option<Result<Summary, DisplayError>>)
      reads this
      ensures v.Some? <==> TruthyOpt(data)
      ensures v.Some? ==> v.value == Summarize(data.value)
    {
      if TruthyOpt(data) then Some(Summarize(data.value)) else None
    }

    /** Since only truthy values are ever stored, the truthiness test of the
      results block is passed by every stored value. */
    lemma ViewShowsEveryStoredResult()
      requires Valid()
      ensures View().Some? <==> data.Some?
    {
    }

    /** One execution of the script: the run block if the button was clicked,
        then the results block. */
    method Rerun(clicked: bool, query: string, mode: string, modelId: string, key: string,
                 service: Service, parse: Parser) returns (shown: Option<Result<Summary, DisplayError>>)
      requires Valid()
      modifies this
      ensures Valid()
      ensures !clicked ==> data == old(data)
      ensures clicked ==> data == SlotAfter(Decide(query, mode, modelId, key, service, parse))
      ensures shown == View()
    {
      if clicked {
        var _ := Run(query, mode, modelId, key, service, parse);
      }
      shown := View();
    }
  }
}
