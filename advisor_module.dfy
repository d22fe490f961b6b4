/**
 * The advisor's client-side model (client/modules/advisor/models/advisor_module.py):
 * the chat endpoint's JSON read into a response with defaults, and the two
 * tests the advisor view branches on.
 */
module AdvisorModule {
  import opened Wrappers
  import Agent

  /**
   * The response JSON as the client receives it: a missing key is None. The
   * server never sends `null` for the kind or the message, so that case is not modelled;
   * a `null` payload reads the same as a missing one.
   */
  datatype ResponseJson = ResponseJson(
    responseType: Option<string>,
    message: Option<string>,
    tradePayload: Option<Agent.TradePayload>)

  /** `AdvisorModel`: the kind as its wire name, the message, the optional payload. */
  datatype AdvisorModel = AdvisorModel(responseType: string, message: string, tradePayload: Option<Agent.TradePayload>)

  /** `from_json`: a missing kind reads as `chat`, a missing message as `""`; the payload is copied. */
  function FromJson(data: ResponseJson): (model: AdvisorModel)
    ensures model.responseType == if data.responseType.Some? then data.responseType.value else "chat"
    ensures model.message == if data.message.Some? then data.message.value else ""
    ensures model.tradePayload == data.tradePayload
  {
    AdvisorModel(
      if data.responseType.Some? then data.responseType.value else "chat",
      if data.message.Some? then data.message.value else "",
      data.tradePayload)
  }

  /** `is_trade`. */
  predicate IsTrade(model: AdvisorModel): (trade: bool)
    ensures trade <==> model.responseType == Agent.WireName(Agent.TradeConfirmation)
    ensures trade ==> !IsForm(model)
  {
    model.responseType == "trade_confirmation"
  }

  /** `is_form`. */
  predicate IsForm(model: AdvisorModel): (form: bool)
    ensures form <==> model.responseType == Agent.WireName(Agent.Form)
  {
    model.responseType == "form"
  }

  /** A response is never both a trade confirmation and a form. */
  lemma NeverTradeAndForm(model: AdvisorModel)
    ensures !(IsTrade(model) && IsForm(model))
  {
    assert "trade_confirmation"[0] != "form"[0];
  }

  /** A response without a kind is plain chat: neither a trade nor a form. */
  lemma MissingKindIsChat(data: ResponseJson)
    requires data.responseType.None?
    ensures !IsTrade(FromJson(data)) && !IsForm(FromJson(data))
    ensures FromJson(data).responseType == "chat"
  {
    assert "chat"[0] != "trade_confirmation"[0] && "chat"[0] != "form"[0];
  }

  /** The JSON the server sends for an `AgentResponse`: every key present. */
  function ToJson(r: Agent.AgentResponse): ResponseJson
  {
    ResponseJson(Some(Agent.WireName(r.responseType)), Some(r.message), r.tradePayload)
  }

  /**
   * Reading the server's response back loses nothing, and the client's two
   * tests recognise exactly the server's trade confirmations and forms.
   */
  lemma ReadsServerResponse(r: Agent.AgentResponse)
    ensures FromJson(ToJson(r)) == AdvisorModel(Agent.WireName(r.responseType), r.message, r.tradePayload)
    ensures IsTrade(FromJson(ToJson(r))) <==> r.responseType == Agent.TradeConfirmation
    ensures IsForm(FromJson(ToJson(r))) <==> r.responseType == Agent.Form
  {
    Agent.WireNameInjective(r.responseType, Agent.TradeConfirmation);
    Agent.WireNameInjective(r.responseType, Agent.Form);
  }

  /**
   * End to end: whatever the executor produced, a response the client
   * treats as a trade carries a payload, and one it treats as a form or
   * chat carries none.
   */
  lemma ClientTradeHasPayload(result: Agent.ExecutorResult)
    ensures var model := FromJson(ToJson(Agent.ResponseFor(result)));
      IsTrade(model) <==> model.tradePayload.Some?
  {
    ReadsServerResponse(Agent.ResponseFor(result));
  }
}
