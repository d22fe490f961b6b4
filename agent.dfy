/**
 * The assistant orchestrator: the per-user memory map, the observation built
 * from a reasoning step the executor could not parse, and the decoding of the
 * executor's final text into one of the three response kinds.
 *
 * The LangChain executor is an oracle: the model receives what it returned,
 * either its `output` text or the text of the exception it raised.
 */
module Agent {
  import opened Wrappers
  import opened Strings

  /** The three response kinds of the chat endpoint. */
  datatype ResponseType = Chat | Form | TradeConfirmation

  /** The wire name of a response kind (`Literal["chat", "form", "trade_confirmation"]`). */
  function WireName(t: ResponseType): (name: string)
    ensures name in {"chat", "form", "trade_confirmation"}
  {
    match t
    case Chat => "chat"
    case Form => "form"
    case TradeConfirmation => "trade_confirmation"
  }

  /** Distinct kinds go on the wire under distinct names. */
  lemma WireNameInjective(a: ResponseType, b: ResponseType)
    ensures WireName(a) == WireName(b) <==> a == b
  {
  }

  /** The `trade_payload` dictionary: `{symbol, amount, price}`. */
  datatype TradePayload = TradePayload(symbol: string, amount: int, price: real)

  /** The `AgentResponse` the chat endpoint returns. */
  datatype AgentResponse = AgentResponse(
    responseType: ResponseType,
    message: string,
    tradePayload: Option<TradePayload>)

  /** What `executor.invoke` gives back: its `output`, or the text of the exception it raised. */
  datatype ExecutorResult = Output(text: string) | Raised(error: string)

  const FormTag: string := "<<OPEN_INVESTMENT_FORM>>"
  const BuyTag: string := "<<CONFIRM_BUY:"
  const TagEnd: string := ">>"
  const FormMessage: string := "Opening form..."
  const UuidMarker: string := "invalid input syntax for type uuid"
  const UuidMessage: string :=
    "I tried to check your portfolio but got confused with the User ID. Please try again."
  const GenericMessage: string :=
    "I'm having trouble connecting to my brain right now. Please try again."
  const ParseFailureMarker: string := "Could not parse LLM output"
  const MissingInputMarker: string := "Missing 'Action Input'"
  const WrongFormatAdvice: string :=
    "You used the wrong format. "
    + "Do not use parentheses '()'. "
    + "Write 'Action: [tool_name]' and then 'Action Input: [value]' on a new line."
  const WrongFormatObservation: string := "Observation: " + WrongFormatAdvice

  /**
   * The observation fed back to the reasoning loop when a step cannot be parsed:
   * a fixed corrective text for the two format errors, the error itself otherwise.
   */
  function HandleParsingError(error: string): (observation: string)
    ensures |observation| >= 13 && observation[..13] == "Observation: "
    ensures Contains(error, ParseFailureMarker) || Contains(error, MissingInputMarker) ==>
            observation == WrongFormatObservation
    ensures !Contains(error, ParseFailureMarker) && !Contains(error, MissingInputMarker) ==>
            observation == "Observation: Error: " + error
  {
    if Contains(error, ParseFailureMarker) || Contains(error, MissingInputMarker) then
      assert WrongFormatObservation[..13] == "Observation: ";
      WrongFormatObservation
    else
      var observation := "Observation: Error: " + error;
      assert observation[..13] == "Observation: ";
      observation
  }

  /**
   * The corrective text comes back exactly for the two format errors: an
   * echoed error never reads as the fixed observation.
   */
  lemma WrongFormatObservationIff(error: string)
    ensures HandleParsingError(error) == WrongFormatObservation <==>
            Contains(error, ParseFailureMarker) || Contains(error, MissingInputMarker)
  {
    if !Contains(error, ParseFailureMarker) && !Contains(error, MissingInputMarker) {
      var echoed := "Observation: Error: " + error;
      assert echoed[13] == 'E';
      assert WrongFormatObservation[13] == WrongFormatAdvice[0] == 'Y';
    }
  }

  /** The chat response that carries the executor's text unchanged. */
  function ChatReply(text: string): AgentResponse
  {
    AgentResponse(Chat, text, None)
  }

  /** `raw.split("<<CONFIRM_BUY:")[1].split(">>")[0]`: the tag's payload text. */
  function BuyPayload(raw: string): string
    requires Contains(raw, BuyTag)
  {
    var pieces := Split(raw, BuyTag);
    Split(pieces[1], TagEnd)[0]
  }

  /**
   * The three comma-separated fields coerced as the source does: the symbol
   * verbatim, `int(field 1)`, `float(field 2)`; None where Python raises.
   */
  function DecodeFields(parts: seq<string>): (payload: Option<TradePayload>)
    ensures payload.Some? <==>
      |parts| >= 3 && ParseInt(parts[1]).Some? && ParseDecimal(parts[2]).Some?
    ensures payload.Some? ==>
      payload.value == TradePayload(parts[0], ParseInt(parts[1]).value, ParseDecimal(parts[2]).value)
  {
    if |parts| >= 3 then
      match (ParseInt(parts[1]), ParseDecimal(parts[2]))
      case (Some(amount), Some(price)) => Some(TradePayload(parts[0], amount, price))
      case _ => None
    else None
  }

  /** Fields after the third are ignored. */
  lemma DecodeFieldsIgnoresExtra(parts: seq<string>)
    requires |parts| >= 3
    ensures DecodeFields(parts) == DecodeFields(parts[..3])
  {
    var first := parts[..3];
    assert first[0] == parts[0] && first[1] == parts[1] && first[2] == parts[2];
  }

  /**
   * What a buy tag's payload becomes: a trade confirmation when its fields
   * coerce, otherwise the chat reply carrying the whole text `raw`.
   */
  function InterpretPayload(raw: string, payload: string): (r: AgentResponse)
    ensures r.responseType == TradeConfirmation <==> DecodeFields(Split(payload, ",")).Some?
    ensures r.responseType == TradeConfirmation ==>
      && r.tradePayload == DecodeFields(Split(payload, ","))
      && r.message == "Confirm buy: " + Split(payload, ",")[1] + " shares of " + Split(payload, ",")[0]
    ensures r.responseType != TradeConfirmation ==> r == ChatReply(raw)
  {
    var parts := Split(payload, ",");
    match DecodeFields(parts)
    case Some(fields) =>
      AgentResponse(TradeConfirmation, "Confirm buy: " + parts[1] + " shares of " + parts[0], Some(fields))
    case None => ChatReply(raw)
  }

  /** The decoding of the executor's `output` text in `process_request`. */
  function DecodeOutput(raw: string): (r: AgentResponse)
    ensures r.responseType == Form <==> Contains(raw, FormTag)
    ensures r.responseType == Form ==> r == AgentResponse(Form, FormMessage, None)
    ensures r.responseType == TradeConfirmation ==> Contains(raw, BuyTag) && r.tradePayload.Some?
    ensures r.responseType != TradeConfirmation ==> r.tradePayload.None?
    ensures r.responseType == Chat ==> r.message == raw
    ensures !Contains(raw, FormTag) && !Contains(raw, BuyTag) ==> r == ChatReply(raw)
  {
    if Contains(raw, FormTag) then
      AgentResponse(Form, FormMessage, None)
    else if Contains(raw, BuyTag) then
      InterpretPayload(raw, BuyPayload(raw))
    else
      ChatReply(raw)
  }

  /** The response `process_request` returns for whatever the executor produced. */
  function ResponseFor(result: ExecutorResult): (r: AgentResponse)
    ensures result.Raised? ==> r.responseType == Chat && r.tradePayload.None?
    ensures result.Raised? ==>
      r.message == (if Contains(result.error, UuidMarker) then UuidMessage else GenericMessage)
    ensures result.Output? ==> r == DecodeOutput(result.text)
  {
    match result
    case Output(raw) => DecodeOutput(raw)
    case Raised(error) =>
      AgentResponse(Chat, if Contains(error, UuidMarker) then UuidMessage else GenericMessage, None)
  }

  /** The fixed parts of the text `process_request` hands to the executor. */
  const RequestLead: string := "User Request: "
  const RulesOpening: string := "\n\nCONTEXT & RULES:\n1. "
  const UserIdLead: string := "My User ID is: "
  const RulesTail: string :=
    " (Use this ONLY for 'check_my_portfolio').\n"
    + "2. For 'get_stock_price', extract the symbol from my request (e.g. Apple -> AAPL, Google -> GOOGL).\n"
    + "3. Do NOT use the User ID as a stock symbol."

  /** The text `process_request` hands to the executor: the request first, then the rules naming the user. */
  function EnhancedInput(userInput: string, userId: string): (text: string)
    ensures |text| >= 14 + |userInput| && text[..14 + |userInput|] == "User Request: " + userInput
    ensures Contains(text, UserIdLead + userId)
  {
    var lead := RequestLead + userInput;
    var named := UserIdLead + userId;
    assert |RequestLead| == 14;
    ContainsInMiddle(lead + RulesOpening, named, RulesTail);
    assert lead + RulesOpening + named + RulesTail == lead + (RulesOpening + named + RulesTail);
    lead + RulesOpening + named + RulesTail
  }

  /** No character of `s` opens a tag. */
  predicate NoTagOpen(s: string)
  {
    '<' !in s
  }

  /** A payload field: no comma (it would split the field) and no angle bracket (it would end or open a tag). */
  predicate PlainField(s: string)
  {
    ',' !in s && '<' !in s && '>' !in s
  }

  /** The form tag does not start at any index of `prefix + BuyTag + rest`. */
  lemma NoFormTagAt(prefix: string, rest: string, j: nat)
    requires NoTagOpen(prefix) && NoTagOpen(rest)
    ensures !OccursAt(prefix + BuyTag + rest, FormTag, j)
  {
    var raw := prefix + BuyTag + rest;
    var p := |prefix|;
    if j + |FormTag| <= |raw| {
      var window := raw[j..j + |FormTag|];
      assert window[0] == raw[j] && window[1] == raw[j + 1] && window[2] == raw[j + 2];
      if j < p {
        assert raw[j] == prefix[j];
        assert window[0] != FormTag[0];
      } else if j == p {
        assert raw[j + 2] == BuyTag[2];
        assert window[2] != FormTag[2];
      } else if j == p + 1 {
        assert raw[j + 1] == BuyTag[2];
        assert window[1] != FormTag[1];
      } else if j < p + |BuyTag| {
        assert raw[j] == BuyTag[j - p];
        assert window[0] != FormTag[0];
      } else {
        assert raw[j] == rest[j - p - |BuyTag|];
        assert window[0] != FormTag[0];
      }
    }
  }

  /** Text around a buy tag that opens no other tag does not contain the form tag. */
  lemma NoFormTagAroundBuyTag(prefix: string, rest: string)
    requires NoTagOpen(prefix) && NoTagOpen(rest)
    ensures !Contains(prefix + BuyTag + rest, FormTag)
  {
    forall j: nat ensures !OccursAt(prefix + BuyTag + rest, FormTag, j) {
      NoFormTagAt(prefix, rest, j);
    }
    IndexOfFirst(prefix + BuyTag + rest, FormTag);
  }

  /** Splitting `a,b,c` on commas when no field holds a comma. */
  lemma SplitThreeFields(a: string, b: string, c: string)
    requires ',' !in a && ',' !in b && ',' !in c
    ensures Split(a + "," + b + "," + c, ",") == [a, b, c]
  {
    var rest := b + "," + c;
    assert a + "," + b + "," + c == a + "," + rest;
    NotContainsWithoutHead(c, ",");
    SplitWithout(c, ",");
    SplitAtFirst(b, ",", c);
    assert Split(rest, ",") == [b, c];
    SplitAtFirst(a, ",", rest);
  }

  /** The payload extracted from `prefix + BuyTag + payload + ">>" + suffix` is `payload`. */
  lemma {:induction false} BuyPayloadOfTag(prefix: string, payload: string, suffix: string)
    requires NoTagOpen(prefix) && NoTagOpen(payload) && '>' !in payload && NoTagOpen(suffix)
    ensures Contains(prefix + BuyTag + payload + TagEnd + suffix, BuyTag)
    ensures BuyPayload(prefix + BuyTag + payload + TagEnd + suffix) == payload
  {
    var rest := payload + TagEnd + suffix;
    var raw := prefix + BuyTag + rest;
    assert raw == prefix + BuyTag + payload + TagEnd + suffix;
    ContainsInMiddle(prefix, BuyTag, rest);
    SplitAtFirst(prefix, BuyTag, rest);
    assert NoTagOpen(rest);
    NotContainsWithoutHead(rest, BuyTag);
    SplitWithout(rest, BuyTag);
    assert Split(raw, BuyTag)[1] == rest;
    SplitAtFirst(payload, TagEnd, suffix);
    assert payload + TagEnd + suffix == rest;
  }

  /** With no `>>` after the buy tag, the payload runs to the end of the text. */
  lemma BuyPayloadToEnd(prefix: string, payload: string)
    requires NoTagOpen(prefix) && NoTagOpen(payload) && '>' !in payload
    ensures Contains(prefix + BuyTag + payload, BuyTag)
    ensures BuyPayload(prefix + BuyTag + payload) == payload
  {
    var raw := prefix + BuyTag + payload;
    assert raw == prefix + BuyTag + payload + [];
    ContainsInMiddle(prefix, BuyTag, payload);
    SplitAtFirst(prefix, BuyTag, payload);
    NotContainsWithoutHead(payload, BuyTag);
    SplitWithout(payload, BuyTag);
    assert Split(raw, BuyTag)[1] == payload;
    NotContainsWithoutHead(payload, TagEnd);
    SplitWithout(payload, TagEnd);
  }

  /** The text of a buy confirmation tag, as the instructions ask the model to write it. */
  function ConfirmBuyTag(symbol: string, amountText: string, priceText: string): string
  {
    BuyTag + symbol + "," + amountText + "," + priceText + TagEnd
  }

  /** Text around a buy tag is decoded from that tag's payload alone. */
  lemma DecodeTagged(prefix: string, payload: string, suffix: string)
    requires NoTagOpen(prefix) && NoTagOpen(payload) && '>' !in payload && NoTagOpen(suffix)
    ensures DecodeOutput(prefix + BuyTag + payload + TagEnd + suffix)
         == InterpretPayload(prefix + BuyTag + payload + TagEnd + suffix, payload)
  {
    var rest := payload + TagEnd + suffix;
    var raw := prefix + BuyTag + payload + TagEnd + suffix;
    assert prefix + BuyTag + rest == raw;
    BuyPayloadOfTag(prefix, payload, suffix);
    NoFormTagAroundBuyTag(prefix, rest);
    assert !Contains(raw, FormTag) && Contains(raw, BuyTag) && BuyPayload(raw) == payload;
  }

  /** `prefix + ConfirmBuyTag(a, b, c) + suffix` regrouped around its payload. */
  lemma ConfirmBuyTagParts(prefix: string, a: string, b: string, c: string, suffix: string)
    ensures prefix + ConfirmBuyTag(a, b, c) + suffix
         == prefix + BuyTag + (a + "," + b + "," + c) + TagEnd + suffix
  {
  }

  /**
   * Tag round trip: a buy confirmation tag with plain fields, surrounded by
   * text that opens no tag, decodes to a trade confirmation carrying the
   * symbol verbatim and the two coerced numbers.
   */
  lemma DecodeConfirmBuy(prefix: string, symbol: string, amountText: string, priceText: string,
                         suffix: string, amount: int, price: real)
    requires NoTagOpen(prefix) && NoTagOpen(suffix)
    requires PlainField(symbol) && PlainField(amountText) && PlainField(priceText)
    requires ParseInt(amountText) == Some(amount) && ParseDecimal(priceText) == Some(price)
    ensures DecodeOutput(prefix + ConfirmBuyTag(symbol, amountText, priceText) + suffix)
         == AgentResponse(TradeConfirmation, "Confirm buy: " + amountText + " shares of " + symbol,
                          Some(TradePayload(symbol, amount, price)))
  {
    var payload := symbol + "," + amountText + "," + priceText;
    ConfirmBuyTagParts(prefix, symbol, amountText, priceText, suffix);
    assert NoTagOpen(payload) && '>' !in payload;
    DecodeTagged(prefix, payload, suffix);
    SplitThreeFields(symbol, amountText, priceText);
  }

  /**
   * A tag whose amount is not an integer, or whose price is not a number,
   * degrades to a chat reply carrying the whole text.
   */
  lemma DecodeBadNumber(prefix: string, symbol: string, amountText: string, priceText: string, suffix: string)
    requires NoTagOpen(prefix) && NoTagOpen(suffix)
    requires PlainField(symbol) && PlainField(amountText) && PlainField(priceText)
    requires ParseInt(amountText).None? || ParseDecimal(priceText).None?
    ensures DecodeOutput(prefix + ConfirmBuyTag(symbol, amountText, priceText) + suffix)
         == ChatReply(prefix + ConfirmBuyTag(symbol, amountText, priceText) + suffix)
  {
    var payload := symbol + "," + amountText + "," + priceText;
    ConfirmBuyTagParts(prefix, symbol, amountText, priceText, suffix);
    assert NoTagOpen(payload) && '>' !in payload;
    DecodeTagged(prefix, payload, suffix);
    SplitThreeFields(symbol, amountText, priceText);
  }

  /** A tag with only two fields degrades to a chat reply. */
  lemma DecodeTooFewFields(prefix: string, symbol: string, amountText: string, suffix: string)
    requires NoTagOpen(prefix) && NoTagOpen(suffix)
    requires PlainField(symbol) && PlainField(amountText)
    ensures DecodeOutput(prefix + BuyTag + (symbol + "," + amountText) + TagEnd + suffix)
         == ChatReply(prefix + BuyTag + (symbol + "," + amountText) + TagEnd + suffix)
  {
    var payload := symbol + "," + amountText;
    assert NoTagOpen(payload) && '>' !in payload;
    DecodeTagged(prefix, payload, suffix);
    SplitTwoFields(symbol, amountText);
  }

  /** Splitting `a,b` on commas when neither field holds a comma. */
  lemma SplitTwoFields(a: string, b: string)
    requires ',' !in a && ',' !in b
    ensures Split(a + "," + b, ",") == [a, b]
  {
    SplitAtFirst(a, ",", b);
    NotContainsWithoutHead(b, ",");
    SplitWithout(b, ",");
  }

  /** The form tag wins over a buy tag in the same text. */
  lemma FormTagFirst(before: string, between: string, after: string)
    ensures DecodeOutput(before + FormTag + between + BuyTag + after) == AgentResponse(Form, FormMessage, None)
  {
    var rest := between + BuyTag + after;
    var raw := before + FormTag + between + BuyTag + after;
    assert before + FormTag + rest == raw;
    ContainsInMiddle(before, FormTag, rest);
    assert Contains(raw, FormTag);
    assert DecodeOutput(raw).responseType == Form;
  }

  /** A conversation memory (LangChain's `ConversationBufferMemory`): the turns it has stored. */
  class Memory {
    var turns: seq<string>

    constructor ()
      ensures turns == []
    {
      turns := [];
    }
  }

  /** The orchestrator: one memory per user, created on the user's first request. */
  class AgentService {
    var userMemories: map<string, Memory>

    constructor ()
      ensures userMemories == map[]
    {
      userMemories := map[];
    }

    /** `_get_memory_for_user`: the user's memory, created empty on first use. */
    method GetMemoryForUser(userId: string) returns (memory: Memory)
      modifies this
      ensures userId in old(userMemories) ==>
        memory == old(userMemories)[userId] && userMemories == old(userMemories)
      ensures userId !in old(userMemories) ==>
        fresh(memory) && memory.turns == [] && userMemories == old(userMemories)[userId := memory]
      ensures userId in userMemories && userMemories[userId] == memory
    {
      if userId !in userMemories {
        var created := new Memory();
        userMemories := userMemories[userId := created];
      }
      memory := userMemories[userId];
    }

    /**
     * `process_request`: make sure the user has a memory, run the executor on
     * the enhanced input, and turn what it produced into a response.
     */
    method ProcessRequest(userInput: string, userId: string, invoke: string -> ExecutorResult)
      returns (response: AgentResponse)
      modifies this
      ensures response == ResponseFor(invoke(EnhancedInput(userInput, userId)))
      ensures userId in userMemories
      ensures userMemories == old(userMemories)[userId := userMemories[userId]]
      ensures userId in old(userMemories) ==> userMemories == old(userMemories)
    {
      var memory := GetMemoryForUser(userId);
      var result := invoke(EnhancedInput(userInput, userId));
      response := ResponseFor(result);
    }
  }
}
