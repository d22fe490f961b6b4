/**
 * The client's trade model (client/modules/trade/models/trade_model.py):
 * purchase-input validation, normalisation of the saved-card response, and
 * the sector lookup. JSON objects the client receives are string maps.
 */
module TradeModel {
  import opened Wrappers
  import opened Strings
  import Ledger
  import TradeRoutes

  /** A JSON object as the client reads it; Python treats an empty one as false. */
  type Record = map<string, string>

  /** `d.get(key, default)`. */
  function Get(d: Record, key: string, default: string): string
  {
    if key in d then d[key] else default
  }

  /** The purchase form's data; a key the form left out is None. */
  datatype PurchaseInput = PurchaseInput(cardNumber: Option<string>, cardHolder: Option<string>, amount: Option<int>)

  const CardNumberError: string := "Card number must be 16 digits."
  const CardHolderError: string := "Card holder name is required."
  const QuantityError: string := "Quantity must be greater than 0."

  /** The card number, read as `""` when missing, has 16 characters. */
  predicate CardNumberValid(data: PurchaseInput)
  {
    |if data.cardNumber.Some? then data.cardNumber.value else ""| == 16
  }

  /** The holder is present and not empty (Python truthiness). */
  predicate CardHolderPresent(data: PurchaseInput)
  {
    data.cardHolder.Some? && data.cardHolder.value != []
  }

  /** The quantity, read as 0 when missing, is positive. */
  predicate QuantityValid(data: PurchaseInput)
  {
    (if data.amount.Some? then data.amount.value else 0) > 0
  }

  /** How many of the three checks fail. */
  function FailedChecks(data: PurchaseInput): nat
  {
    (if CardNumberValid(data) then 0 else 1)
    + (if CardHolderPresent(data) then 0 else 1)
    + (if QuantityValid(data) then 0 else 1)
  }

  /** The position of a message in the fixed order of the checks. */
  function CheckRank(message: string): nat
  {
    if message == CardNumberError then 0
    else if message == CardHolderError then 1
    else if message == QuantityError then 2
    else 3
  }

  lemma MessagesDistinct()
    ensures CardNumberError != CardHolderError
    ensures CardNumberError != QuantityError && CardHolderError != QuantityError
  {
    assert CardNumberError[5] != CardHolderError[5];
    assert CardNumberError[0] != QuantityError[0];
    assert CardHolderError[0] != QuantityError[0];
  }

  /**
   * Collect one message per failing check, in the order card number,
   * holder, quantity. The list is empty exactly when the input is valid.
   */
  method ValidatePurchaseInput(data: PurchaseInput) returns (errors: seq<string>)
    ensures errors == [] <==> CardNumberValid(data) && CardHolderPresent(data) && QuantityValid(data)
    ensures CardNumberError in errors <==> !CardNumberValid(data)
    ensures CardHolderError in errors <==> !CardHolderPresent(data)
    ensures QuantityError in errors <==> !QuantityValid(data)
    ensures |errors| == FailedChecks(data)
    ensures forall i, j :: 0 <= i < j < |errors| ==> CheckRank(errors[i]) < CheckRank(errors[j])
  {
    MessagesDistinct();
    errors := [];
    var cardNumber := if data.cardNumber.Some? then data.cardNumber.value else "";
    if |cardNumber| != 16 {
      errors := errors + [CardNumberError];
    }
    if !(data.cardHolder.Some? && data.cardHolder.value != []) {
      errors := errors + [CardHolderError];
    }
    var amount := if data.amount.Some? then data.amount.value else 0;
    if amount <= 0 {
      errors := errors + [QuantityError];
    }
  }

  /** What the card endpoint answers, as the client receives it. */
  datatype CardsResponse = CardsResponse(status: Option<string>, data: Option<Record>)

  /** The normalised answer: a status and a list of at most one card. */
  datatype CardsResult = CardsResult(status: string, cards: seq<Record>)

  /** Wrap a present, non-empty card record into a list; any status but `success` is an error. */
  function GetSavedCards(response: CardsResponse): (result: CardsResult)
    ensures result.status == "success" <==> response.status == Some("success")
    ensures result.status == "success" || result.status == "error"
    ensures |result.cards| <= 1
    ensures result.cards != [] <==>
      response.status == Some("success") && response.data.Some? && response.data.value != map[]
    ensures result.cards != [] ==> result.cards[0] == response.data.value
  {
    if response.status == Some("success") then
      var raw := response.data;
      CardsResult("success", if raw.Some? && raw.value != map[] then [raw.value] else [])
    else CardsResult("error", [])
  }

  /** A saved card as the endpoint serialises it. */
  function CardRecord(card: Ledger.SavedCard): (r: Record)
    ensures "card_number" in r && r["card_number"] == card.cardNumber
  {
    map["user_id" := card.userId, "card_holder" := card.cardHolder, "card_number" := card.cardNumber,
        "expiration" := card.expiration, "cvv" := card.cvv]
  }

  /** The endpoint's answer as JSON: the server always answers with status 200. */
  function OverTheWire(response: TradeRoutes.CardResponse): CardsResponse
  {
    CardsResponse(Some(response.status),
                  if response.data.Some? then Some(CardRecord(response.data.value)) else None)
  }

  /**
   * End to end: the client's list holds the user's first saved card, and is
   * empty when the user has none or the lookup fails.
   */
  lemma ClientSeesFirstSavedCard(db: Ledger.Database, userId: string, lookupFails: bool)
    ensures var first := Ledger.FirstCardOf(db.savedCards, userId);
      GetSavedCards(OverTheWire(TradeRoutes.GetSavedCard(db, userId, lookupFails))).cards
        == if !lookupFails && first.Some? then [CardRecord(first.value)] else []
  {
    var response := TradeRoutes.GetSavedCard(db, userId, lookupFails);
    if response.data.Some? {
      assert "card_number" in CardRecord(response.data.value);
    }
  }

  /** The sector of a quote, `Technology` when there is no quote or it has no sector. */
  function GetStockSector(quote: Option<Record>): (sector: string)
    ensures quote.Some? && "sector" in quote.value ==> sector == quote.value["sector"]
    ensures quote.None? || "sector" !in quote.value ==> sector == "Technology"
  {
    if quote.Some? && quote.value != map[] then Get(quote.value, "sector", "Technology")
    else "Technology"
  }

  /** The quote object the server's quote service builds: symbol, price, currency, source. */
  function ServiceQuote(symbol: string, priceText: string): Record
  {
    map["symbol" := symbol, "price" := priceText, "currency" := "USD",
        "source" := "Yahoo Finance (Service Layer)"]
  }

  /** The server's quotes carry no sector, so the client always files purchases under `Technology`. */
  lemma SectorIsAlwaysTechnology(quote: Option<Record>)
    requires quote.Some? ==> exists symbol, priceText :: quote.value == ServiceQuote(symbol, priceText)
    ensures GetStockSector(quote) == "Technology"
  {
    if quote.Some? {
      var symbol, priceText :| quote.value == ServiceQuote(symbol, priceText);
      assert "sector"[1] != "symbol"[1] && "sector"[0] != "price"[0];
      assert "sector"[0] != "currency"[0] && "sector"[1] != "source"[1];
      assert "sector" !in quote.value;
    }
  }
}
