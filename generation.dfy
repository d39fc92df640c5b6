/** `generate_fanout(query, mode, active_model_id)`: refuse without an API key,
    otherwise send the prompt to the hosted model and parse the reply text as
    JSON; any exception on the way becomes Python's `None`. */
module Generation {
  import opened PyValues
  import opened Prompting

  /** What the hosted model call yields for one request: the reply's text, or
      an exception (unknown model, quota, network, blocked reply, ...). */
  datatype CallOutcome = Reply(text: string) | Raised(message: string)

  /** The hosted model, seen from this program: given the model identifier
      and the prompt, some outcome. Nothing is assumed about which one. */
  type Service = (string, string) -> CallOutcome

  /** `json.loads`: a parsed value, or None when it raises. */
  type Parser = string -> Option<Json>

  /** The value `generate_fanout` returns; None is Python's `None`. */
  function GenerateFanout(query: string, mode: string, modelId: string, key: string,
                          service: Service, parse: Parser): (r: Option<Json>)
    ensures key == [] ==> r == None
    ensures service(modelId, QueryFanoutPrompt(query, mode)).Raised? ==> r == None
    ensures r.Some? ==>
      key != [] &&
      service(modelId, QueryFanoutPrompt(query, mode)).Reply? &&
      parse(service(modelId, QueryFanoutPrompt(query, mode)).text) == r
    ensures key != [] && service(modelId, QueryFanoutPrompt(query, mode)).Reply? ==>
      r == parse(service(modelId, QueryFanoutPrompt(query, mode)).text)
  {
    if key == [] then None
    else
      match service(modelId, QueryFanoutPrompt(query, mode))
      case Raised(_) => None
      case Reply(text) => parse(text)
  }

  /** The only request ever made is the one carrying exactly the prompt built
      from (query, mode): two services that answer it alike give the same
      result, whatever they do for any other prompt or model. */
  lemma OnlyTheFanoutPromptIsSent(query: string, mode: string, modelId: string, key: string,
                                  s1: Service, s2: Service, parse: Parser)
    requires s1(modelId, QueryFanoutPrompt(query, mode)) == s2(modelId, QueryFanoutPrompt(query, mode))
    ensures GenerateFanout(query, mode, modelId, key, s1, parse)
         == GenerateFanout(query, mode, modelId, key, s2, parse)
  {
  }
}
