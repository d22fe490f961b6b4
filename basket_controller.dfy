/**
 * The AI basket checkout (client/modules/trade/controller/basket_controller.py):
 * a table of rows allocated from the basket's percentages of a budget, a
 * running total, and a checkout that confirms one card through the trade
 * form and then sends one buy order per row with a positive quantity.
 * Prices, quotes and the server's answers are inputs of the model.
 */
module BasketCheckout {
  import opened Wrappers
  import opened Strings
  import opened TradeModel
  import opened TradeUi

  /** The range of a row's quantity spin box is 0..10000. */
  const MaxRowQuantity: int := 10000
  /** The user id sent when no user is logged in. */
  const DefaultUserId: string := "1"
  /** The symbol the checkout form shows. */
  const BasketSymbol: string := "AI Portfolio Basket"

  /** A basket entry as the advisor proposed it; a missing key is None. */
  datatype BasketItem = BasketItem(symbol: Option<string>, percentage: Option<real>)

  /** A table row: the symbol, its fetched price, and its spin box's value. */
  datatype BasketRow = BasketRow(symbol: string, price: real, quantity: int)

  /** An order of the checkout: a row with a positive quantity. */
  datatype Order = Order(symbol: string, amount: int, price: real, sector: string)

  /** The JSON body of one buy request. */
  datatype BuyPayload = BuyPayload(
    symbol: string, amount: int, price: real, userId: string, sector: string, saveCard: bool,
    cardHolder: string, cardNumber: string, expiration: string, cvv: string)

  /** How the checkout ends: nothing to buy, cancelled, or the number of orders the server accepted. */
  datatype CheckoutResult = EmptyBasket | Cancelled | Executed(successCount: nat)

  /**
   * What the user does with the checkout form: confirm the card fields as
   * shown (`Keep`), confirm after typing `fields`, or close it (None in the
   * model's input). `saveCard` is the check box as left.
   */
  datatype CheckoutEntry = Keep(saveCard: bool) | Typed(fields: CardFields, saveCard: bool)

  /** `item.get("percentage", 0)`. */
  function Percentage(item: BasketItem): real
  {
    if item.percentage.Some? then item.percentage.value else 0.0
  }

  /** The item has a non-empty symbol and a positive percentage. */
  predicate Selectable(item: BasketItem)
  {
    item.symbol.Some? && item.symbol.value != [] && Percentage(item) > 0.0
  }

  /** `total_budget * (percentage / 100.0)`. */
  function BudgetShare(budget: real, item: BasketItem): real
  {
    budget * (Percentage(item) / 100.0)
  }

  /** `int(share // price)`: the whole number of shares the share buys. */
  function InitialQuantity(share: real, price: real): (q: int)
    requires price > 0.0
    ensures q as real <= share / price < q as real + 1.0
  {
    (share / price).Floor
  }

  /**
   * The row an item yields: none when its symbol is missing or empty, its
   * percentage is not positive, or its price is not positive (a failed
   * fetch reads as 0.0); otherwise the fetched price and the initial
   * quantity, clamped into the spin box's range.
   */
  function RowFor(item: BasketItem, budget: real, fetch: string -> real): (row: Option<BasketRow>)
    ensures row.None? <==> !Selectable(item) || fetch(item.symbol.value) <= 0.0
    ensures row.Some? ==>
      && row.value.symbol == item.symbol.value && row.value.price == fetch(item.symbol.value)
      && row.value.price > 0.0 && 0 <= row.value.quantity <= MaxRowQuantity
  {
    if !Selectable(item) then None
    else
      var price := fetch(item.symbol.value);
      if price <= 0.0 then None
      else
        var quantity := InitialQuantity(BudgetShare(budget, item), price);
        Some(BasketRow(item.symbol.value, price, Clamp(quantity, 0, MaxRowQuantity)))
  }

  /** The table `populate_table` builds: the rows of the surviving items, in basket order. */
  function Allocate(items: seq<BasketItem>, budget: real, fetch: string -> real): seq<BasketRow>
    decreases |items|
  {
    if items == [] then []
    else
      var rows := Allocate(items[..|items| - 1], budget, fetch);
      match RowFor(items[|items| - 1], budget, fetch)
      case None => rows
      case Some(row) => rows + [row]
  }

  /** The table has at most one row per basket item. */
  lemma {:induction false} AllocateAtMostOnePerItem(items: seq<BasketItem>, budget: real, fetch: string -> real)
    ensures |Allocate(items, budget, fetch)| <= |items|
    decreases |items|
  {
    if items != [] {
      AllocateAtMostOnePerItem(items[..|items| - 1], budget, fetch);
    }
  }

  /** One more item of the basket adds its row, if it has one. */
  lemma AllocatePrefix(items: seq<BasketItem>, i: nat, budget: real, fetch: string -> real)
    requires i < |items|
    ensures var row := RowFor(items[i], budget, fetch);
      Allocate(items[..i + 1], budget, fetch)
        == Allocate(items[..i], budget, fetch) + if row.Some? then [row.value] else []
  {
    assert items[..i + 1][..i] == items[..i];
  }

  /** Allocation works item by item: the table of a concatenation is the concatenation of the tables. */
  lemma {:induction false} AllocateConcat(a: seq<BasketItem>, b: seq<BasketItem>, budget: real, fetch: string -> real)
    ensures Allocate(a + b, budget, fetch) == Allocate(a, budget, fetch) + Allocate(b, budget, fetch)
    decreases |b|
  {
    if b == [] {
      assert a + b == a;
    } else {
      var init := b[..|b| - 1];
      assert (a + b)[..|a + b| - 1] == a + init;
      assert (a + b)[|a + b| - 1] == b[|b| - 1];
      AllocateConcat(a, init, budget, fetch);
    }
  }

  /** Every row comes from a selectable item with a positive price, and its quantity fits the spin box. */
  lemma {:induction false} AllocatedRowsWellFormed(items: seq<BasketItem>, budget: real, fetch: string -> real)
    ensures |Allocate(items, budget, fetch)| <= |items|
    ensures forall row :: row in Allocate(items, budget, fetch) ==>
      row.price > 0.0 && 0 <= row.quantity <= MaxRowQuantity
      && exists item :: item in items && Selectable(item) && item.symbol.value == row.symbol
    decreases |items|
  {
    if items != [] {
      var init := items[..|items| - 1];
      var last := items[|items| - 1];
      AllocatedRowsWellFormed(init, budget, fetch);
      forall row | row in Allocate(items, budget, fetch)
        ensures row.price > 0.0 && 0 <= row.quantity <= MaxRowQuantity
        ensures exists item :: item in items && Selectable(item) && item.symbol.value == row.symbol
      {
        if row in Allocate(init, budget, fetch) {
          var item :| item in init && Selectable(item) && item.symbol.value == row.symbol;
          assert item in items;
        } else {
          assert last in items;
        }
      }
    }
  }

  /** `a <= b` and `p >= 0` give `a * p <= b * p`. */
  lemma ScaleUp(a: real, b: real, p: real)
    requires a <= b && p >= 0.0
    ensures a * p <= b * p && p * a <= p * b
  {
    assert (b - a) * p >= 0.0;
  }

  /** With a budget of at least 0, a row's initial cost never exceeds its item's share of the budget. */
  lemma RowWithinShare(item: BasketItem, budget: real, fetch: string -> real)
    requires budget >= 0.0 && RowFor(item, budget, fetch).Some?
    ensures var row := RowFor(item, budget, fetch).value;
      row.quantity as real * row.price <= BudgetShare(budget, item)
  {
    var row := RowFor(item, budget, fetch).value;
    var share := BudgetShare(budget, item);
    var price := row.price;
    var q := InitialQuantity(share, price);
    assert share >= 0.0 by {
      ScaleUp(0.0, Percentage(item) / 100.0, budget);
    }
    assert share / price >= 0.0;
    assert 0 <= row.quantity <= q || row.quantity == 0;
    ScaleUp(row.quantity as real, q as real, price);
    ScaleUp(q as real, share / price, price);
    assert (share / price) * price == share;
  }

  /** The percentage an item contributes: its own when it is selectable, else 0. */
  function Counted(item: BasketItem): (p: real)
    ensures p >= 0.0
  {
    if Selectable(item) then Percentage(item) else 0.0
  }

  /** The sum of the percentages of the selectable items. */
  function PercentSum(items: seq<BasketItem>): (sum: real)
    ensures sum >= 0.0
    decreases |items|
  {
    if items == [] then 0.0 else PercentSum(items[..|items| - 1]) + Counted(items[|items| - 1])
  }

  /** Σ quantity · price over the rows: what `update_totals` shows. */
  function RowsTotal(rows: seq<BasketRow>): real
    decreases |rows|
  {
    if rows == [] then 0.0
    else RowsTotal(rows[..|rows| - 1]) + rows[|rows| - 1].quantity as real * rows[|rows| - 1].price
  }

  lemma RowsTotalSnoc(rows: seq<BasketRow>, row: BasketRow)
    ensures RowsTotal(rows + [row]) == RowsTotal(rows) + row.quantity as real * row.price
  {
    assert (rows + [row])[..|rows|] == rows;
  }

  /** Σ of the budget shares of the selectable items. */
  function ShareSum(items: seq<BasketItem>, budget: real): real
    decreases |items|
  {
    if items == [] then 0.0
    else ShareSum(items[..|items| - 1], budget) + budget * (Counted(items[|items| - 1]) / 100.0)
  }

  /** The shares add up to the budget times the summed percentages. */
  lemma {:induction false} ShareSumIsPercentOfBudget(items: seq<BasketItem>, budget: real)
    ensures ShareSum(items, budget) == budget * (PercentSum(items) / 100.0)
    decreases |items|
  {
    if items != [] {
      var init := items[..|items| - 1];
      ShareSumIsPercentOfBudget(init, budget);
      Distribute(budget, PercentSum(init), Counted(items[|items| - 1]));
    }
  }

  lemma Distribute(budget: real, a: real, b: real)
    ensures budget * (a / 100.0) + budget * (b / 100.0) == budget * ((a + b) / 100.0)
  {
  }

  /** With a budget of at least 0, the initial table costs at most the selected items' shares. */
  lemma {:induction false} AllocationWithinShares(items: seq<BasketItem>, budget: real, fetch: string -> real)
    requires budget >= 0.0
    ensures RowsTotal(Allocate(items, budget, fetch)) <= ShareSum(items, budget)
    decreases |items|
  {
    if items != [] {
      AllocationWithinShares(items[..|items| - 1], budget, fetch);
      if RowFor(items[|items| - 1], budget, fetch).Some? {
        AddedRowWithinShare(items, budget, fetch);
      } else {
        ScaleUp(0.0, Counted(items[|items| - 1]) / 100.0, budget);
      }
    }
  }

  lemma AddedRowWithinShare(items: seq<BasketItem>, budget: real, fetch: string -> real)
    requires budget >= 0.0 && items != [] && RowFor(items[|items| - 1], budget, fetch).Some?
    ensures RowsTotal(Allocate(items, budget, fetch))
      <= RowsTotal(Allocate(items[..|items| - 1], budget, fetch)) + budget * (Counted(items[|items| - 1]) / 100.0)
  {
    var rows := Allocate(items[..|items| - 1], budget, fetch);
    var last := items[|items| - 1];
    var row := RowFor(last, budget, fetch).value;
    assert Allocate(items, budget, fetch) == rows + [row];
    RowsTotalSnoc(rows, row);
    RowWithinShare(last, budget, fetch);
    assert Counted(last) == Percentage(last);
    assert BudgetShare(budget, last) == budget * (Counted(last) / 100.0);
  }

  /** A basket whose percentages add up to at most 100 starts within the budget. */
  lemma AllocationWithinBudget(items: seq<BasketItem>, budget: real, fetch: string -> real)
    requires budget >= 0.0 && PercentSum(items) <= 100.0
    ensures RowsTotal(Allocate(items, budget, fetch)) <= budget
  {
    AllocationWithinShares(items, budget, fetch);
    SharesWithinBudget(items, budget);
  }

  /** Shares of at most 100 percent in total add up to at most the budget. */
  lemma SharesWithinBudget(items: seq<BasketItem>, budget: real)
    requires budget >= 0.0 && PercentSum(items) <= 100.0
    ensures ShareSum(items, budget) <= budget
  {
    var percent := PercentSum(items);
    ShareSumIsPercentOfBudget(items, budget);
    FractionOfBudget(budget, percent);
    EqualThenAtMost(ShareSum(items, budget), budget * (percent / 100.0), budget);
  }

  lemma EqualThenAtMost(a: real, b: real, c: real)
    requires a == b && b <= c
    ensures a <= c
  {
  }

  /** At most 100 percent of a budget of at least 0 is at most the budget. */
  lemma FractionOfBudget(budget: real, percent: real)
    requires budget >= 0.0 && percent <= 100.0
    ensures budget * (percent / 100.0) <= budget
  {
    var fraction := percent / 100.0;
    ScaleUp(fraction, 1.0, budget);
    assert budget * 1.0 == budget;
  }

  /** The orders of a table: its rows with a positive quantity, in table order, sector `Unknown`. */
  function OrdersOf(rows: seq<BasketRow>): (orders: seq<Order>)
    ensures |orders| <= |rows|
    decreases |rows|
  {
    if rows == [] then []
    else
      var last := rows[|rows| - 1];
      OrdersOf(rows[..|rows| - 1])
        + if last.quantity > 0 then [Order(last.symbol, last.quantity, last.price, "Unknown")] else []
  }

  /** One more row adds its order when its quantity is positive. */
  lemma OrdersPrefix(rows: seq<BasketRow>, i: nat)
    requires i < |rows|
    ensures OrdersOf(rows[..i + 1]) == OrdersOf(rows[..i])
      + if rows[i].quantity > 0 then [Order(rows[i].symbol, rows[i].quantity, rows[i].price, "Unknown")] else []
  {
    assert rows[..i + 1][..i] == rows[..i];
  }

  lemma OrdersTotalSnoc(orders: seq<Order>, order: Order)
    ensures OrdersTotal(orders + [order]) == OrdersTotal(orders) + order.amount as real * order.price
  {
    assert (orders + [order])[..|orders|] == orders;
  }

  /** Σ amount · price over the orders: the amount the checkout form charges. */
  function OrdersTotal(orders: seq<Order>): real
    decreases |orders|
  {
    if orders == [] then 0.0
    else OrdersTotal(orders[..|orders| - 1]) + orders[|orders| - 1].amount as real * orders[|orders| - 1].price
  }

  /** The rows left out of the orders hold no shares, so the checkout charges the table's total. */
  lemma {:induction false} OrdersTotalIsRowsTotal(rows: seq<BasketRow>)
    requires forall i :: 0 <= i < |rows| ==> rows[i].quantity >= 0
    ensures OrdersTotal(OrdersOf(rows)) == RowsTotal(rows)
    decreases |rows|
  {
    if rows != [] {
      var init := rows[..|rows| - 1];
      OrdersTotalIsRowsTotal(init);
      assert rows == init + [rows[|rows| - 1]];
      RowKeepsTotals(init, rows[|rows| - 1]);
    }
  }

  /** One more row with no negative quantity keeps the orders' total equal to the table's. */
  lemma RowKeepsTotals(init: seq<BasketRow>, last: BasketRow)
    requires OrdersTotal(OrdersOf(init)) == RowsTotal(init)
    requires last.quantity >= 0
    ensures OrdersTotal(OrdersOf(init + [last])) == RowsTotal(init + [last])
  {
    var rows := init + [last];
    assert rows[..|rows| - 1] == init;
    RowsTotalSnoc(init, last);
    if last.quantity > 0 {
      var order := Order(last.symbol, last.quantity, last.price, "Unknown");
      assert OrdersOf(rows) == OrdersOf(init) + [order];
      OrdersTotalSnoc(OrdersOf(init), order);
    } else {
      assert OrdersOf(rows) == OrdersOf(init) + [];
      assert OrdersOf(init) + [] == OrdersOf(init);
      EmptyRowCostsNothing(last);
    }
  }

  /** A row without shares adds nothing to the total. */
  lemma EmptyRowCostsNothing(row: BasketRow)
    requires row.quantity == 0
    ensures row.quantity as real * row.price == 0.0
  {
  }

  /** Every order has a positive amount and names a row of the table. */
  lemma {:induction false} OrdersArePositiveRows(rows: seq<BasketRow>)
    ensures forall o :: o in OrdersOf(rows) ==>
      o.amount > 0 && BasketRow(o.symbol, o.price, o.amount) in rows
    decreases |rows|
  {
    if rows != [] {
      var init := rows[..|rows| - 1];
      OrdersArePositiveRows(init);
      forall o | o in OrdersOf(rows)
        ensures o.amount > 0 && BasketRow(o.symbol, o.price, o.amount) in rows
      {
        if o in OrdersOf(init) {
          assert BasketRow(o.symbol, o.price, o.amount) in init;
        } else {
          assert BasketRow(o.symbol, o.price, o.amount) == rows[|rows| - 1];
        }
      }
    }
  }

  /** The server accepted a buy: status 200 or 201. */
  predicate Succeeded(status: int)
  {
    status == 200 || status == 201
  }

  /** How many of the first `n` responses were successes. */
  function SuccessCount(statusOf: nat -> int, n: nat): nat
  {
    if n == 0 then 0 else SuccessCount(statusOf, n - 1) + if Succeeded(statusOf(n - 1)) then 1 else 0
  }

  lemma {:induction false} SuccessCountGrows(statusOf: nat -> int, i: nat, j: nat)
    requires i <= j
    ensures SuccessCount(statusOf, i) <= SuccessCount(statusOf, j)
    decreases j - i
  {
    if i < j {
      SuccessCountGrows(statusOf, i, j - 1);
    }
  }

  /** The `save_card` flag of the order at `index`: the form's flag until the first success. */
  function SaveFlag(formFlag: bool, statusOf: nat -> int, index: nat): bool
  {
    formFlag && SuccessCount(statusOf, index) == 0
  }

  /**
   * Once an order has been accepted, no later order asks the server to
   * save the card; before that, every order carries the form's flag.
   */
  lemma SaveFlagUntilFirstSuccess(formFlag: bool, statusOf: nat -> int, i: nat, j: nat)
    requires i < j && Succeeded(statusOf(i))
    ensures !SaveFlag(formFlag, statusOf, j)
    ensures (forall k: nat :: k < i ==> !Succeeded(statusOf(k))) ==> SaveFlag(formFlag, statusOf, i) == formFlag
  {
    SuccessCountGrows(statusOf, i + 1, j);
    if forall k: nat :: k < i ==> !Succeeded(statusOf(k)) {
      NoSuccessYet(statusOf, i);
    }
  }

  lemma {:induction false} NoSuccessYet(statusOf: nat -> int, n: nat)
    requires forall k: nat :: k < n ==> !Succeeded(statusOf(k))
    ensures SuccessCount(statusOf, n) == 0
  {
    if n > 0 {
      NoSuccessYet(statusOf, n - 1);
    }
  }

  /** The user id the orders carry: the logged-in user's, else `"1"`. */
  function UserIdOf(currentUser: Option<string>): string
  {
    if currentUser.Some? then currentUser.value else DefaultUserId
  }

  /** The cards the checkout shows: those of a successful answer, none when the call raised or failed. */
  function ShownCards(answer: Option<CardsResponse>): seq<Record>
  {
    if answer.Some? && GetSavedCards(answer.value).status == "success" then GetSavedCards(answer.value).cards
    else []
  }

  /** The checkout form for `total`: one basket at that price, nothing bought before. */
  function CheckoutForm(total: real, fields: CardFields, saveCard: bool): Form
  {
    Form(BasketSymbol, total, 1, fields, saveCard, 0.0, None)
  }

  /** What the card fields hold after the user's entry: the first saved card, or what was typed. */
  function EnteredFields(cards: seq<Record>, entry: CheckoutEntry): CardFields
  {
    match entry
    case Keep(_) => if cards != [] then FieldsOf(cards[0]) else CardFields("", "", "", "")
    case Typed(fields, _) =>
      CardFields(fields.holder, Limit(fields.number, CardNumberMaxLength), fields.expiration,
                 Limit(fields.cvv, CvvMaxLength))
  }

  /**
   * The trade data the checkout dialog hands back: the form's emitted data
   * when the user confirms and the checks pass; a closed dialog, or one
   * whose checks fail, counts as cancelled.
   */
  function ConfirmedCheckout(total: real, cards: seq<Record>, entry: Option<CheckoutEntry>): (data: Option<TradeData>)
    ensures data.Some? ==> entry.Some? && data.value.amount == 1 && data.value.price == total
    ensures data.Some? ==> data.value.saveCard == entry.value.saveCard
  {
    if entry.None? then None
    else
      match Submit(CheckoutForm(total, EnteredFields(cards, entry.value), entry.value.saveCard))
      case Emitted(data) => Some(data)
      case Warning(_) => None
  }

  /**
   * `BasketCheckoutDialog(total)`: a trade form in buy mode at the basket's
   * total, quantity 1, "save card" checked, no card filled in.
   */
  method NewCheckoutDialog(total: real) returns (view: TradeView)
    ensures fresh(view) && view.Valid()
    ensures view.tradeMode == "buy" && view.symbolText == BasketSymbol
    ensures view.currentUnitPrice == total && view.quantity == 1 && view.total == total
    ensures view.saveCard && view.buyPrice == 0.0 && view.eventId == None
    ensures view.savedCardsData == [] && view.Fields() == CardFields("", "", "", "")
  {
    view := new TradeView();
    view.SetMode("buy");
    assert view.quantity == 1 && view.minimum == 1 && view.maximum == BuyMaximum;
    view.SetStockData(BasketSymbol, total, 0.0, 0.0, None);
    assert view.tradeMode == "buy" && view.quantity == 1 && view.total == total;
    view.SpinSetValue(1);
    view.saveCard := true;
  }

  /** The dialog, then `load_saved_cards` when there are cards: the first card is filled in. */
  method OpenCheckout(total: real, cards: seq<Record>) returns (view: TradeView)
    ensures fresh(view) && view.Valid()
    ensures view.CurrentForm() == CheckoutForm(total, EnteredFields(cards, Keep(true)), true)
  {
    view := NewCheckoutDialog(total);
    if cards != [] {
      view.LoadSavedCards(cards);
    }
  }

  /**
   * The user's entry on the open dialog, then the action button: the form's
   * outcome is exactly what `ConfirmedCheckout` describes.
   */
  method RunCheckout(total: real, cards: seq<Record>, entry: Option<CheckoutEntry>) returns (data: Option<TradeData>)
    ensures data == ConfirmedCheckout(total, cards, entry)
  {
    var view := OpenCheckout(total, cards);
    if entry.None? {
      return None;
    }
    var fields := EnteredFields(cards, entry.value);
    view.cardHolder, view.cardNumber, view.expiration, view.cvv := fields.holder, fields.number, fields.expiration, fields.cvv;
    view.saveCard := entry.value.saveCard;
    assert view.CurrentForm() == CheckoutForm(total, fields, entry.value.saveCard);
    var outcome := view.HandleAction();
    data := if outcome.Emitted? then Some(outcome.data) else None;
  }

  /** The body of the buy request for one order. */
  function PayloadOf(order: Order, userId: string, sector: string, saveCard: bool, card: TradeData): BuyPayload
  {
    BuyPayload(order.symbol, order.amount, order.price, userId, sector, saveCard,
               card.cardHolder, card.cardNumber, card.expiration, card.cvv)
  }

  /**
   * The sending loop: one buy per order, in order, with its quote's sector,
   * asking to save the card until the first accepted order; the count of
   * accepted orders.
   */
  method SendOrders(orders: seq<Order>, userId: string, card: TradeData,
                    quoteOf: string -> Option<Record>, statusOf: nat -> int)
    returns (sent: seq<BuyPayload>, successCount: nat)
    ensures |sent| == |orders| && successCount == SuccessCount(statusOf, |orders|)
    ensures forall k :: 0 <= k < |orders| ==>
      sent[k] == PayloadOf(orders[k], userId, GetStockSector(quoteOf(orders[k].symbol)),
                           SaveFlag(card.saveCard, statusOf, k), card)
  {
    sent := [];
    successCount := 0;
    var saveCardFlag := card.saveCard;
    var k := 0;
    while k < |orders|
      invariant 0 <= k <= |orders| && |sent| == k
      invariant successCount == SuccessCount(statusOf, k)
      invariant saveCardFlag == SaveFlag(card.saveCard, statusOf, k)
      invariant forall j :: 0 <= j < k ==>
        sent[j] == PayloadOf(orders[j], userId, GetStockSector(quoteOf(orders[j].symbol)),
                             SaveFlag(card.saveCard, statusOf, j), card)
    {
      var order := orders[k];
      var sector := GetStockSector(quoteOf(order.symbol));
      sent := sent + [PayloadOf(order, userId, sector, saveCardFlag, card)];
      if Succeeded(statusOf(k)) {
        successCount := successCount + 1;
        saveCardFlag := false;
      }
      k := k + 1;
    }
  }

  /** One step of the order collection: a row with shares adds its order and its cost. */
  method AppendOrder(orders: seq<Order>, total: real, row: BasketRow) returns (next: seq<Order>, nextTotal: real)
    requires total == OrdersTotal(orders)
    ensures next == orders + if row.quantity > 0 then [Order(row.symbol, row.quantity, row.price, "Unknown")] else []
    ensures nextTotal == OrdersTotal(next)
  {
    if row.quantity > 0 {
      var order := Order(row.symbol, row.quantity, row.price, "Unknown");
      OrdersTotalSnoc(orders, order);
      next := orders + [order];
      nextTotal := total + order.amount as real * order.price;
    } else {
      next := orders;
      nextTotal := total;
      assert orders + [] == orders;
    }
  }

  class BasketController {
    var basketData: seq<BasketItem>
    var totalBudget: real
    /** The table's rows (the spin boxes' values are the quantities). */
    var rows: seq<BasketRow>
    /** The amount the total label shows. */
    var grandTotal: real

    /** Every quantity is within its spin box's range and the label shows the table's total. */
    ghost predicate Valid()
      reads this
    {
      && (forall i :: 0 <= i < |rows| ==> 0 <= rows[i].quantity <= MaxRowQuantity)
      && grandTotal == RowsTotal(rows)
    }

    /** The controller fills its table as soon as it is built. */
    constructor (basketData: seq<BasketItem>, totalBudget: real, fetch: string -> real)
      ensures Valid()
      ensures this.basketData == basketData && this.totalBudget == totalBudget
      ensures rows == Allocate(basketData, totalBudget, fetch)
    {
      this.basketData := basketData;
      this.totalBudget := totalBudget;
      rows := [];
      grandTotal := 0.0;
      new;
      PopulateTable(fetch);
    }

    /**
     * `populate_table`: rebuild the rows from empty, one per item that has
     * a symbol, a positive percentage and a positive price, in basket order;
     * then the totals.
     */
    method PopulateTable(fetch: string -> real)
      modifies this`rows, this`grandTotal
      ensures Valid()
      ensures rows == Allocate(basketData, totalBudget, fetch)
    {
      var items, budget := basketData, totalBudget;
      var table := [];
      var i := 0;
      while i < |items|
        invariant 0 <= i <= |items|
        invariant table == Allocate(items[..i], budget, fetch)
      {
        var item := items[i];
        AllocatePrefix(items, i, budget, fetch);
        if item.symbol.Some? && item.symbol.value != [] && Percentage(item) > 0.0 {
          var symbol := item.symbol.value;
          var price := fetch(symbol);
          if price > 0.0 {
            var share := budget * (Percentage(item) / 100.0);
            var quantity := InitialQuantity(share, price);
            var row := BasketRow(symbol, price, Clamp(quantity, 0, MaxRowQuantity));
            assert Selectable(item);
            assert share == BudgetShare(budget, item);
            assert RowFor(item, budget, fetch).Some?;
            assert RowFor(item, budget, fetch).value.quantity == row.quantity;
            assert RowFor(item, budget, fetch) == Some(row);
            table := table + [row];
          } else {
            assert RowFor(item, budget, fetch) == None;
          }
        } else {
          assert RowFor(item, budget, fetch) == None;
        }
        i := i + 1;
      }
      assert items[..i] == items;
      rows := table;
      AllocatedRowsWellFormed(basketData, totalBudget, fetch);
      UpdateTotals();
    }

    /** `update_totals`: the label shows Σ quantity · price over the rows. */
    method UpdateTotals()
      modifies this`grandTotal
      ensures grandTotal == RowsTotal(rows)
    {
      var total := 0.0;
      var i := 0;
      while i < |rows|
        invariant 0 <= i <= |rows|
        invariant total == RowsTotal(rows[..i])
      {
        var row := rows[i];
        assert rows[..i + 1][..i] == rows[..i];
        total := total + row.quantity as real * row.price;
        i := i + 1;
      }
      assert rows[..i] == rows;
      grandTotal := total;
    }

    /** The user sets row `i`'s spin box: the value is clamped, and a change recomputes the totals. */
    method SetRowQuantity(i: nat, value: int)
      requires Valid() && i < |rows|
      modifies this`rows, this`grandTotal
      ensures Valid()
      ensures rows == old(rows)[i := old(rows)[i].(quantity := Clamp(value, 0, MaxRowQuantity))]
    {
      var clamped := Clamp(value, 0, MaxRowQuantity);
      if clamped != rows[i].quantity {
        rows := rows[i := rows[i].(quantity := clamped)];
        UpdateTotals();
      }
    }

    /**
     * `execute_all_trades`: collect the orders; with none, warn and stop.
     * Load the cards, open the checkout at the orders' total, and stop if
     * it is not confirmed. Otherwise send one buy per order, in order, with
     * the sector of its quote, the user id and the confirmed card, asking
     * to save the card until the first order the server accepts; count the
     * accepted ones. `cardsAnswer` is the card lookup (None when it
     * raised), `entry` the user's use of the dialog, `quoteOf` the quote
     * lookup and `statusOf(k)` the status of the k-th buy request.
     */
    method ExecuteAllTrades(currentUser: Option<string>, cardsAnswer: Option<CardsResponse>,
                            entry: Option<CheckoutEntry>, quoteOf: string -> Option<Record>,
                            statusOf: nat -> int)
      returns (result: CheckoutResult, sent: seq<BuyPayload>, checkoutTotal: real)
      ensures var orders := OrdersOf(rows);
        && checkoutTotal == OrdersTotal(orders)
        && (orders == [] ==> result == EmptyBasket && sent == [])
        && (orders != [] && ConfirmedCheckout(checkoutTotal, ShownCards(cardsAnswer), entry).None? ==>
              result == Cancelled && sent == [])
    ensures var orders := OrdersOf(rows);
        var card := ConfirmedCheckout(checkoutTotal, ShownCards(cardsAnswer), entry);
        orders != [] && card.Some? ==>
          && result == Executed(SuccessCount(statusOf, |orders|))
          && |sent| == |orders|
          && forall k :: 0 <= k < |orders| ==>
               sent[k] == PayloadOf(orders[k], UserIdOf(currentUser), GetStockSector(quoteOf(orders[k].symbol)),
                                    SaveFlag(card.value.saveCard, statusOf, k), card.value)
    {
      var orders;
      orders, checkoutTotal := CollectOrders();
      sent := [];
      if orders == [] {
        return EmptyBasket, sent, checkoutTotal;
      }
      var userId := UserIdOf(currentUser);
      var cards := ShownCards(cardsAnswer);
      var confirmed := RunCheckout(checkoutTotal, cards, entry);
      if confirmed.None? {
        return Cancelled, sent, checkoutTotal;
      }
      var successCount;
      sent, successCount := SendOrders(orders, userId, confirmed.value, quoteOf, statusOf);
      result := Executed(successCount);
    }

    /** The orders of the table and what they cost together. */
    method CollectOrders() returns (orders: seq<Order>, total: real)
      ensures orders == OrdersOf(rows) && total == OrdersTotal(orders)
    {
      orders := [];
      total := 0.0;
      var table := rows;
      var i := 0;
      while i < |table|
        invariant 0 <= i <= |table|
        invariant orders == OrdersOf(table[..i]) && total == OrdersTotal(orders)
      {
        OrdersPrefix(table, i);
        orders, total := AppendOrder(orders, total, table[i]);
        i := i + 1;
      }
      assert table[..i] == table;
    }

    /** The checkout charges what the table shows. */
    lemma CheckoutChargesDisplayedTotal()
      requires Valid()
      ensures OrdersTotal(OrdersOf(rows)) == grandTotal
    {
      OrdersTotalIsRowsTotal(rows);
    }
  }
}
