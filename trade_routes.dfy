/**
 * The trade endpoints of server/api/trade_routes.py: a purchase saves the
 * card when asked and then delegates to the repository; a sale reads,
 * lowers or deletes the watchlist row itself and logs the sale; the card
 * lookup returns the user's first saved card.
 */
module TradeRoutes {
  import opened Wrappers
  import opened Strings
  import opened Ledger

  datatype PurchaseRequest = PurchaseRequest(
    symbol: string, price: real, amount: int,
    cardNumber: string, cardHolder: string, expiration: string, cvv: string,
    saveCard: bool, userId: string, sector: string)

  datatype SaleRequest = SaleRequest(
    symbol: string, currentPrice: real, buyPrice: real, amount: int, eventId: int,
    cardNumber: string, cardHolder: string, expiration: string, cvv: string,
    userId: string)

  /** An `HTTPException`: status code and detail text. */
  datatype HttpError = HttpError(status: int, detail: string)

  /** The card row a purchase saves. */
  function CardOf(req: PurchaseRequest): SavedCard
  {
    SavedCard(req.userId, req.cardHolder, req.cardNumber, req.expiration, req.cvv)
  }

  function PurchaseEvent(req: PurchaseRequest): Event
  {
    Event(req.userId, Upper(req.symbol), StockPurchased,
          PurchasePayload(req.amount, req.price, Some(req.cardNumber)))
  }

  /**
   * `POST /trade/buy`: insert the card first when `save_card` is set, then
   * buy through the repository with the card number, sector and user.
   */
  method BuyStock(repo: StockRepository, req: PurchaseRequest) returns (message: string)
    modifies repo.db
    ensures message == "Purchased " + IntToString(req.amount) + " of " + req.symbol
    ensures repo.db.savedCards == old(repo.db.savedCards) + (if req.saveCard then [CardOf(req)] else [])
    ensures repo.db.events == old(repo.db.events) + [PurchaseEvent(req)]
    ensures repo.db.watchlist == old(repo.db.watchlist)[Key(req.userId, req.symbol) :=
      BuyRow(old(repo.db.SelectRow(Key(req.userId, req.symbol))), req.amount, req.price, req.sector)]
    ensures repo.db.journal == old(repo.db.journal)
      + (if req.saveCard then [CardInsert(CardOf(req))] else [])
      + [EventInsert(PurchaseEvent(req)), RowUpsert(Key(req.userId, req.symbol))]
  {
    if req.saveCard {
      repo.db.InsertCard(CardOf(req));
    }
    repo.BuyStock(req.symbol, req.price, req.amount, Some(req.cardNumber), req.sector, req.userId);
    message := "Purchased " + IntToString(req.amount) + " of " + req.symbol;
  }

  /** The route's own message for a refused sale. */
  function RouteSellError(req: SaleRequest, refusal: SellRefusal): string
  {
    match refusal
    case NoShares => "You don't own " + req.symbol + " in your watchlist."
    case Insufficient(available) =>
      "Cannot sell " + IntToString(req.amount) + ", you only own " + IntToString(available)
  }

  /** The route logs the sale under the request's symbol exactly as sent. */
  function SaleEvent(req: SaleRequest): Event
  {
    Event(req.userId, req.symbol, StockSold, SalePayload(req.amount, req.currentPrice))
  }

  /**
   * `POST /trade/sell`: refuse with HTTP 500, changing nothing, when the
   * user holds no row or too few shares; otherwise delete the row (nothing
   * left) or set its quantity, then insert one `STOCK_SOLD` event.
   */
  method SellStock(db: Database, req: SaleRequest) returns (result: Result<string, HttpError>)
    modifies db
    ensures var key := Key(req.userId, req.symbol);
      match SellRow(old(db.SelectRow(key)), req.amount)
      case Err(refusal) =>
        && result == Err(HttpError(500, RouteSellError(req, refusal)))
        && db.watchlist == old(db.watchlist) && db.events == old(db.events)
        && db.journal == old(db.journal)
      case Ok(row) =>
        && result == Ok("Sold " + IntToString(req.amount) + " shares of " + req.symbol)
        && db.watchlist == (if row.None? then old(db.watchlist) - {key}
                            else old(db.watchlist)[key := row.value])
        && db.events == old(db.events) + [SaleEvent(req)]
        && db.journal == old(db.journal) +
             [if row.None? then RowDelete(key) else RowUpdate(key), EventInsert(SaleEvent(req))]
    ensures db.savedCards == old(db.savedCards)
  {
    var key := Key(req.userId, req.symbol);
    var current := db.SelectRow(key);
    if current.None? {
      return Err(HttpError(500, RouteSellError(req, NoShares)));
    }
    var currentQty := current.value.amount;
    if req.amount > currentQty {
      return Err(HttpError(500, RouteSellError(req, Insufficient(currentQty))));
    }
    var newQty := currentQty - req.amount;
    if newQty <= 0 {
      db.DeleteRow(key);
    } else {
      db.UpdateAmount(key, newQty);
    }
    db.InsertEvent(SaleEvent(req));
    result := Ok("Sold " + IntToString(req.amount) + " shares of " + req.symbol);
  }

  /** The card lookup's answer: `status` and `data`. */
  datatype CardResponse = CardResponse(status: string, data: Option<SavedCard>)

  /**
   * `GET /trade/cards/{user_id}`: the user's first saved card, `data: None`
   * when there is none, and status `error` when the lookup itself fails
   * (`lookupFails`, a store failure the model takes as input).
   */
  function GetSavedCard(db: Database, userId: string, lookupFails: bool): (response: CardResponse)
    reads db
    ensures response.status == "error" <==> lookupFails
    ensures response.status == "error" || response.status == "success"
    ensures lookupFails ==> response.data.None?
    ensures response.data.Some? ==>
      response.data.value in db.savedCards && response.data.value.userId == userId
    ensures !lookupFails && response.data.None? ==> forall c :: c in db.savedCards ==> c.userId != userId
  {
    if lookupFails then CardResponse("error", None)
    else CardResponse("success", FirstCardOf(db.savedCards, userId))
  }
}
