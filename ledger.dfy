/**
 * The position ledger of server/repositories/stock_repository.py: one
 * watchlist row per (user, symbol) holding the quantity and the average
 * cost, next to an append-only log of stock events. The two database tables
 * (and the saved-cards table the trade routes write) are the fields of
 * `Database`; the repository's operations are the methods of
 * `StockRepository`, written step for step as the source issues its table
 * writes. A ghost journal records every write in order, so the contracts
 * can say which write comes first.
 */
module Ledger {
  import opened Wrappers
  import opened Strings

  /** The primary key of a watchlist row. */
  datatype Key = Key(userId: string, symbol: string)

  /** A watchlist row: quantity held, average cost, and sector (absent on rows added by hand). */
  datatype Position = Position(amount: int, price: real, sector: Option<string>)

  datatype EventKind = StockAdded | StockRemoved | StockPurchased | StockSold

  /** The JSON payload of an event; `paymentInfo` and `source` appear on some kinds only. */
  datatype Payload = Payload(amount: int, price: real, total: real,
                             paymentInfo: Option<string>, source: Option<string>)

  datatype Event = Event(userId: string, symbol: string, kind: EventKind, payload: Payload)

  /** A row of the saved-cards table. */
  datatype SavedCard = SavedCard(userId: string, cardHolder: string, cardNumber: string,
                                 expiration: string, cvv: string)

  /** One write to the database, as the ghost journal records it. */
  datatype Write =
    | EventInsert(event: Event)
    | RowUpsert(key: Key)
    | RowUpdate(key: Key)
    | RowDelete(key: Key)
    | CardInsert(card: SavedCard)

  // ---------------------------------------------------------------------
  // Buying: the weighted average cost
  // ---------------------------------------------------------------------

  /** What a holding cost in total: quantity times average cost. */
  function Cost(p: Position): real
  {
    p.amount as real * p.price
  }

  /** The average of `cost` over `amount` shares. */
  function Average(cost: real, amount: int): real
    requires amount != 0
  {
    cost / amount as real
  }

  lemma AverageTimesAmount(cost: real, amount: int)
    requires amount != 0
    ensures Average(cost, amount) * amount as real == cost
  {
  }

  /**
   * The row a purchase leaves behind. Without a row, or when the combined
   * quantity would not be positive, the purchase's own quantity and price
   * replace it; otherwise the quantities add and the average is weighted.
   * The sector always becomes the purchase's.
   */
  function BuyRow(current: Option<Position>, amountToBuy: int, price: real, sector: string): Position
  {
    match current
    case Some(p) =>
      if p.amount + amountToBuy > 0 then
        var newAmount := p.amount + amountToBuy;
        Position(newAmount, Average(Cost(p) + amountToBuy as real * price, newAmount), Some(sector))
      else Position(amountToBuy, price, Some(sector))
    case None => Position(amountToBuy, price, Some(sector))
  }

  /**
   * The sector always becomes the purchase's; with a row and a positive
   * combined quantity the quantities add; otherwise the purchase replaces the row.
   */
  lemma BuyRowCases(current: Option<Position>, amountToBuy: int, price: real, sector: string)
    ensures BuyRow(current, amountToBuy, price, sector).sector == Some(sector)
    ensures current.Some? && current.value.amount + amountToBuy > 0 ==>
      BuyRow(current, amountToBuy, price, sector).amount == current.value.amount + amountToBuy
    ensures current.None? || current.value.amount + amountToBuy <= 0 ==>
      BuyRow(current, amountToBuy, price, sector) == Position(amountToBuy, price, Some(sector))
  {
  }

  /** A first purchase opens the row at its own quantity and price. */
  lemma BuyOpensRow(amountToBuy: int, price: real, sector: string)
    ensures BuyRow(None, amountToBuy, price, sector) == Position(amountToBuy, price, Some(sector))
  {
  }

  /** The weighted-average identity: the new row costs what the old row and the purchase cost together. */
  lemma BuyKeepsCost(p: Position, amountToBuy: int, price: real, sector: string)
    requires p.amount + amountToBuy > 0
    ensures BuyRow(Some(p), amountToBuy, price, sector).amount == p.amount + amountToBuy
    ensures Cost(BuyRow(Some(p), amountToBuy, price, sector)) == Cost(p) + amountToBuy as real * price
  {
    AverageTimesAmount(Cost(p) + amountToBuy as real * price, p.amount + amountToBuy);
  }

  /** Buying at a price between the old average and itself keeps the average between them. */
  lemma BuyAverageBetween(p: Position, amountToBuy: int, price: real, sector: string)
    requires p.amount > 0 && amountToBuy > 0 && p.price <= price
    ensures p.price <= BuyRow(Some(p), amountToBuy, price, sector).price <= price
  {
    var r := BuyRow(Some(p), amountToBuy, price, sector);
    var held, bought := p.amount as real, amountToBuy as real;
    var n := (p.amount + amountToBuy) as real;
    assert n == held + bought;
    BuyKeepsCost(p, amountToBuy, price, sector);
    assert r.price * n == held * p.price + bought * price;
    assert held * p.price <= held * price;
    assert bought * p.price <= bought * price;
    assert p.price * n == held * p.price + bought * p.price;
    assert price * n == held * price + bought * price;
    ScaledLessEq(p.price, r.price, n);
    ScaledLessEq(r.price, price, n);
  }

  lemma ScaledLessEq(x: real, y: real, n: real)
    requires n > 0.0 && x * n <= y * n
    ensures x <= y
  {
    assert (y - x) * n >= 0.0;
  }

  /** One purchase: quantity and price. */
  datatype Purchase = Purchase(amount: int, price: real)

  /** The row a run of purchases leaves, starting from `row`. */
  function AfterBuys(row: Option<Position>, buys: seq<Purchase>, sector: string): Option<Position>
    decreases |buys|
  {
    if buys == [] then row
    else AfterBuys(Some(BuyRow(row, buys[0].amount, buys[0].price, sector)), buys[1..], sector)
  }

  function TotalAmount(buys: seq<Purchase>): int
  {
    if buys == [] then 0 else buys[0].amount + TotalAmount(buys[1..])
  }

  function TotalCost(buys: seq<Purchase>): real
  {
    if buys == [] then 0.0 else buys[0].amount as real * buys[0].price + TotalCost(buys[1..])
  }

  predicate AllPositive(buys: seq<Purchase>)
  {
    forall k :: 0 <= k < |buys| ==> buys[k].amount > 0
  }

  function HeldAmount(row: Option<Position>): int
  {
    if row.Some? then row.value.amount else 0
  }

  function HeldCost(row: Option<Position>): real
  {
    if row.Some? then Cost(row.value) else 0.0
  }

  /** One purchase of a positive quantity adds its quantity and its cost to the row. */
  lemma BuyAdds(row: Option<Position>, amountToBuy: int, price: real, sector: string)
    requires amountToBuy > 0 && HeldAmount(row) >= 0
    ensures BuyRow(row, amountToBuy, price, sector).amount == HeldAmount(row) + amountToBuy
    ensures Cost(BuyRow(row, amountToBuy, price, sector)) == HeldCost(row) + amountToBuy as real * price
  {
    if row.Some? {
      BuyKeepsCost(row.value, amountToBuy, price, sector);
    }
  }

  /** Purchases of positive quantities accumulate quantity and cost. */
  lemma AfterBuysTotals(row: Option<Position>, buys: seq<Purchase>, sector: string)
    requires AllPositive(buys) && HeldAmount(row) >= 0
    ensures HeldAmount(AfterBuys(row, buys, sector)) == HeldAmount(row) + TotalAmount(buys)
    ensures HeldCost(AfterBuys(row, buys, sector)) == HeldCost(row) + TotalCost(buys)
  {
    AfterBuysAmount(row, buys, sector);
    AfterBuysCost(row, buys, sector);
  }

  /** The tail of a run of positive purchases is positive too. */
  lemma RestPositive(buys: seq<Purchase>)
    requires buys != [] && AllPositive(buys)
    ensures AllPositive(buys[1..])
  {
    var rest := buys[1..];
    forall k | 0 <= k < |rest| ensures rest[k].amount > 0 {
      assert rest[k] == buys[k + 1];
    }
  }

  lemma {:induction false} AfterBuysAmount(row: Option<Position>, buys: seq<Purchase>, sector: string)
    requires AllPositive(buys) && HeldAmount(row) >= 0
    ensures HeldAmount(AfterBuys(row, buys, sector)) == HeldAmount(row) + TotalAmount(buys)
    decreases |buys|
  {
    if buys != [] {
      var first, rest := buys[0], buys[1..];
      var next := Some(BuyRow(row, first.amount, first.price, sector));
      BuyAdds(row, first.amount, first.price, sector);
      RestPositive(buys);
      AfterBuysAmount(next, rest, sector);
      assert AfterBuys(row, buys, sector) == AfterBuys(next, rest, sector);
    }
  }

  lemma {:induction false} AfterBuysCost(row: Option<Position>, buys: seq<Purchase>, sector: string)
    requires AllPositive(buys) && HeldAmount(row) >= 0
    ensures HeldCost(AfterBuys(row, buys, sector)) == HeldCost(row) + TotalCost(buys)
    decreases |buys|
  {
    if buys != [] {
      var first, rest := buys[0], buys[1..];
      var next := Some(BuyRow(row, first.amount, first.price, sector));
      BuyAdds(row, first.amount, first.price, sector);
      assert HeldCost(next) == HeldCost(row) + first.amount as real * first.price;
      RestPositive(buys);
      AfterBuysCost(next, rest, sector);
      assert AfterBuys(row, buys, sector) == AfterBuys(next, rest, sector);
      assert TotalCost(buys) == first.amount as real * first.price + TotalCost(rest);
    }
  }

  /**
   * From an empty row, positive purchases leave the total quantity at the
   * quantity-weighted average price: `Σ qᵢpᵢ / Σ qᵢ`.
   */
  lemma AfterBuysIsWeightedAverage(buys: seq<Purchase>, sector: string)
    requires buys != [] && AllPositive(buys)
    ensures AfterBuys(None, buys, sector).Some?
    ensures TotalAmount(buys) > 0
    ensures AfterBuys(None, buys, sector).value.amount == TotalAmount(buys)
    ensures AfterBuys(None, buys, sector).value.price == Average(TotalCost(buys), TotalAmount(buys))
  {
    AfterBuysTotals(None, buys, sector);
    AfterBuysSector(None, buys, sector);
    TotalAmountPositive(buys);
    var r := AfterBuys(None, buys, sector);
    var n := TotalAmount(buys);
    assert r.value.price * n as real == TotalCost(buys);
    AverageTimesAmount(TotalCost(buys), n);
    assert r.value.price == Average(TotalCost(buys), n) by {
      assert (r.value.price - Average(TotalCost(buys), n)) * n as real == 0.0;
    }
  }

  lemma {:induction false} TotalAmountPositive(buys: seq<Purchase>)
    requires buys != [] && AllPositive(buys)
    ensures TotalAmount(buys) > 0
    decreases |buys|
  {
    if |buys| > 1 {
      assert AllPositive(buys[1..]) by {
        forall k | 0 <= k < |buys[1..]| ensures buys[1..][k].amount > 0 { assert buys[1..][k] == buys[k + 1]; }
      }
      TotalAmountPositive(buys[1..]);
    }
  }

  lemma TotalsOfConcat(a: seq<Purchase>, b: seq<Purchase>)
    ensures TotalAmount(a + b) == TotalAmount(a) + TotalAmount(b)
    ensures TotalCost(a + b) == TotalCost(a) + TotalCost(b)
    decreases |a|
  {
    if a != [] {
      assert (a + b)[1..] == a[1..] + b;
      TotalsOfConcat(a[1..], b);
    } else {
      assert a + b == b;
    }
  }

  lemma TotalsOfSingle(x: Purchase)
    ensures TotalAmount([x]) == x.amount && TotalCost([x]) == x.amount as real * x.price
  {
    assert [x][1..] == [];
  }

  /** Taking `x` out of `c + [x] + d` takes its quantity and cost out of the totals. */
  lemma TotalsAround(c: seq<Purchase>, x: Purchase, d: seq<Purchase>)
    ensures TotalAmount(c + [x] + d) == x.amount + TotalAmount(c + d)
    ensures TotalCost(c + [x] + d) == x.amount as real * x.price + TotalCost(c + d)
  {
    TotalsOfConcat(c + [x], d);
    TotalsOfConcat(c, [x]);
    TotalsOfConcat(c, d);
    TotalsOfSingle(x);
  }

  /** Taking the same element out of two permutations of each other leaves permutations. */
  lemma MultisetWithout(a: seq<Purchase>, b: seq<Purchase>, j: nat)
    requires a != [] && j < |b| && b[j] == a[0] && multiset(a) == multiset(b)
    ensures multiset(a[1..]) == multiset(b[..j] + b[j + 1..])
  {
    var x, c, d := a[0], b[..j], b[j + 1..];
    assert b == c + [x] + d;
    assert a == [x] + a[1..];
    assert multiset(b) == multiset(c) + multiset{x} + multiset(d);
    assert multiset(c + d) == multiset(c) + multiset(d);
    assert multiset(a) == multiset{x} + multiset(a[1..]);
    assert multiset(a[1..]) == multiset(a) - multiset{x};
    assert multiset(c + d) == multiset(b) - multiset{x};
  }

  /** The totals do not depend on the order of the purchases. */
  lemma TotalsOfPermutation(a: seq<Purchase>, b: seq<Purchase>)
    requires multiset(a) == multiset(b)
    ensures TotalAmount(a) == TotalAmount(b) && TotalCost(a) == TotalCost(b)
  {
    TotalAmountOfPermutation(a, b);
    TotalCostOfPermutation(a, b);
  }

  /** The first purchase of `a` sits somewhere in its permutation `b`; around it lies a permutation of the rest. */
  lemma PermutationStep(a: seq<Purchase>, b: seq<Purchase>) returns (c: seq<Purchase>, d: seq<Purchase>)
    requires a != [] && multiset(a) == multiset(b)
    ensures b == c + [a[0]] + d && multiset(a[1..]) == multiset(c + d)
  {
    assert a[0] in multiset(b);
    var j :| 0 <= j < |b| && b[j] == a[0];
    MultisetWithout(a, b, j);
    c, d := b[..j], b[j + 1..];
    assert b == c + [b[j]] + d;
  }

  lemma {:induction false} TotalAmountOfPermutation(a: seq<Purchase>, b: seq<Purchase>)
    requires multiset(a) == multiset(b)
    ensures TotalAmount(a) == TotalAmount(b)
    decreases |a|
  {
    if a == [] {
      assert |b| == |multiset(b)| == 0;
    } else {
      var c, d := PermutationStep(a, b);
      TotalAmountOfPermutation(a[1..], c + d);
      TotalsAround(c, a[0], d);
    }
  }

  lemma {:induction false} TotalCostOfPermutation(a: seq<Purchase>, b: seq<Purchase>)
    requires multiset(a) == multiset(b)
    ensures TotalCost(a) == TotalCost(b)
    decreases |a|
  {
    if a == [] {
      assert |b| == |multiset(b)| == 0;
    } else {
      var c, d := PermutationStep(a, b);
      TotalCostOfPermutation(a[1..], c + d);
      TotalsAround(c, a[0], d);
    }
  }

  /** Whatever order the same positive purchases arrive in, the row ends the same. */
  lemma AfterBuysOrderIndependent(a: seq<Purchase>, b: seq<Purchase>, sector: string)
    requires a != [] && AllPositive(a) && multiset(a) == multiset(b)
    ensures AfterBuys(None, a, sector) == AfterBuys(None, b, sector)
  {
    assert |b| == |multiset(b)| == |multiset(a)| == |a|;
    assert AllPositive(b) by {
      forall k | 0 <= k < |b| ensures b[k].amount > 0 {
        assert b[k] in multiset(a);
      }
    }
    AfterBuysIsWeightedAverage(a, sector);
    AfterBuysIsWeightedAverage(b, sector);
    TotalsOfPermutation(a, b);
    AfterBuysSector(None, a, sector);
    AfterBuysSector(None, b, sector);
  }

  /** After at least one purchase the row carries that purchase's sector. */
  lemma {:induction false} AfterBuysSector(row: Option<Position>, buys: seq<Purchase>, sector: string)
    requires buys != []
    ensures AfterBuys(row, buys, sector).Some?
    ensures AfterBuys(row, buys, sector).value.sector == Some(sector)
    decreases |buys|
  {
    if |buys| > 1 {
      AfterBuysSector(Some(BuyRow(row, buys[0].amount, buys[0].price, sector)), buys[1..], sector);
    }
  }

  // ---------------------------------------------------------------------
  // Selling
  // ---------------------------------------------------------------------

  /** Why a sale is refused. */
  datatype SellRefusal = NoShares | Insufficient(available: int)

  /**
   * The row a sale leaves: refused without a row or when more is sold than
   * held; otherwise deleted (None) when nothing is left, else the same row
   * with only the quantity lowered.
   */
  function SellRow(current: Option<Position>, amountToSell: int): (r: Result<Option<Position>, SellRefusal>)
    ensures r == Ok(None) ==> current.Some? && amountToSell == current.value.amount
    ensures r.Ok? && r.value.Some? ==>
      && current.Some? && r.value.value.amount > 0
      && r.value.value == current.value.(amount := current.value.amount - amountToSell)
  {
    match current
    case None => Err(NoShares)
    case Some(p) =>
      if amountToSell > p.amount then Err(Insufficient(p.amount))
      else if p.amount - amountToSell <= 0 then Ok(None)
      else Ok(Some(p.(amount := p.amount - amountToSell)))
  }

  /** A sale is refused exactly when there is no row or it asks for more than is held. */
  lemma SellRefusedIff(current: Option<Position>, amountToSell: int)
    ensures SellRow(current, amountToSell).Err? <==>
      current.None? || amountToSell > current.value.amount
    ensures current.Some? && amountToSell > current.value.amount ==>
      SellRow(current, amountToSell) == Err(Insufficient(current.value.amount))
  {
  }

  /** A partial sale keeps the average cost and the sector, and lowers the quantity by the amount sold. */
  lemma PartialSellKeepsCost(p: Position, amountToSell: int)
    requires amountToSell <= p.amount && p.amount - amountToSell > 0
    ensures SellRow(Some(p), amountToSell).Ok?
    ensures SellRow(Some(p), amountToSell).value.Some?
    ensures SellRow(Some(p), amountToSell).value.value.price == p.price
    ensures SellRow(Some(p), amountToSell).value.value.sector == p.sector
    ensures SellRow(Some(p), amountToSell).value.value.amount + amountToSell == p.amount
  {
  }

  /** Selling everything that is held deletes the row. */
  lemma SellAllDeletes(p: Position)
    ensures SellRow(Some(p), p.amount) == Ok(None)
  {
  }

  /** The repository's message for a refused sale. */
  function RepositorySellError(symbol: string, refusal: SellRefusal): string
  {
    match refusal
    case NoShares => "No shares found for " + symbol
    case Insufficient(available) => InsufficientLead + IntToString(available)
  }

  const InsufficientLead: string := "Insufficient shares. Available: "

  /** The message tells the refusals apart, and an oversell's message tells the amount held. */
  lemma RepositorySellErrorIdentifiesRefusal(symbol: string, a: SellRefusal, b: SellRefusal)
    ensures RepositorySellError(symbol, a) == RepositorySellError(symbol, b) <==> a == b
  {
    var ma, mb := RepositorySellError(symbol, a), RepositorySellError(symbol, b);
    if a.NoShares? != b.NoShares? {
      assert ma[0] != mb[0];
    } else if a.Insufficient? && ma == mb {
      var n := |InsufficientLead|;
      assert ma == InsufficientLead + IntToString(a.available);
      assert mb == InsufficientLead + IntToString(b.available);
      assert IntToString(a.available) == ma[n..] == mb[n..] == IntToString(b.available);
      ParseIntOfIntToString(a.available);
      ParseIntOfIntToString(b.available);
    }
  }

  /** Two purchases and a sale of everything: 10 at 100 and 5 at 130 average to 15 at 110, and selling 15 deletes the row. */
  lemma BuyBuySellScenario(sector: string)
    ensures AfterBuys(None, [Purchase(10, 100.0), Purchase(5, 130.0)], sector)
         == Some(Position(15, 110.0, Some(sector)))
    ensures SellRow(Some(Position(15, 110.0, Some(sector))), 15) == Ok(None)
    ensures SellRow(Some(Position(15, 110.0, Some(sector))), 16) == Err(Insufficient(15))
  {
    var first := BuyRow(None, 10, 100.0, sector);
    assert first == Position(10, 100.0, Some(sector));
    var second := BuyRow(Some(first), 5, 130.0, sector);
    assert Cost(first) + 5 as real * 130.0 == 1650.0;
    assert Average(1650.0, 15) == 110.0;
    assert second == Position(15, 110.0, Some(sector));
    var buys := [Purchase(10, 100.0), Purchase(5, 130.0)];
    assert buys[1..] == [Purchase(5, 130.0)];
    assert buys[1..][1..] == [];
  }

  // ---------------------------------------------------------------------
  // Event payloads
  // ---------------------------------------------------------------------

  /** The payment info of a purchase event: the card's last four characters, or `N/A` without a card. */
  function PaymentInfo(cardNumber: Option<string>): (info: string)
    ensures cardNumber.Some? ==> info == TakeLast(cardNumber.value, 4)
    ensures cardNumber.None? ==> info == "N/A"
  {
    if cardNumber.Some? then TakeLast(cardNumber.value, 4) else "N/A"
  }

  /** A card number of at least four characters shows exactly its last four. */
  lemma PaymentInfoLastFour(cardNumber: string)
    requires |cardNumber| >= 4
    ensures |PaymentInfo(Some(cardNumber))| == 4
    ensures PaymentInfo(Some(cardNumber)) == cardNumber[|cardNumber| - 4..]
  {
  }

  function PurchasePayload(amountToBuy: int, price: real, cardNumber: Option<string>): Payload
  {
    Payload(amountToBuy, price, price * amountToBuy as real, Some(PaymentInfo(cardNumber)), None)
  }

  function SalePayload(amountToSell: int, currentPrice: real): Payload
  {
    Payload(amountToSell, currentPrice, amountToSell as real * currentPrice, None, None)
  }

  function AddedPayload(price: real): Payload
  {
    Payload(0, price, 0.0, None, Some("manual_add"))
  }

  const RemovedPayload: Payload := Payload(0, 0.0, 0.0, None, None)

  /** The row `add_to_watchlist` upserts: quantity 0 at the given price; an existing sector is kept. */
  function AddedRow(current: Option<Position>, price: real): Position
  {
    Position(0, price, if current.Some? then current.value.sector else None)
  }

  // ---------------------------------------------------------------------
  // Queries
  // ---------------------------------------------------------------------

  /** The rows `get_watchlist` selects: the user's rows, or every row when no user is given. */
  function RowsOf(watchlist: map<Key, Position>, userId: string): (rows: map<Key, Position>)
    ensures forall k :: k in rows ==> k in watchlist && rows[k] == watchlist[k]
    ensures forall k :: k in watchlist ==> (k in rows <==> userId == [] || k.userId == userId)
  {
    map k | k in watchlist && (userId == [] || k.userId == userId) :: watchlist[k]
  }

  /** Writing one user's row changes no other user's watchlist. */
  lemma RowsOfOtherUser(watchlist: map<Key, Position>, key: Key, row: Position, userId: string)
    requires userId != [] && key.userId != userId
    ensures RowsOf(watchlist[key := row], userId) == RowsOf(watchlist, userId)
    ensures RowsOf(watchlist - {key}, userId) == RowsOf(watchlist, userId)
  {
  }

  /** The events for one symbol, newest first. */
  function HistoryOf(events: seq<Event>, symbol: string): (history: seq<Event>)
    ensures |history| <= |events|
    ensures forall e :: e in history ==> e in events && e.symbol == symbol
  {
    if events == [] then []
    else
      var last := events[|events| - 1];
      (if last.symbol == symbol then [last] else []) + HistoryOf(events[..|events| - 1], symbol)
  }

  /** A new event comes first in its symbol's history; other symbols' histories do not change. */
  lemma HistoryOfAppend(events: seq<Event>, e: Event, symbol: string)
    ensures HistoryOf(events + [e], e.symbol) == [e] + HistoryOf(events, e.symbol)
    ensures symbol != e.symbol ==> HistoryOf(events + [e], symbol) == HistoryOf(events, symbol)
  {
    assert (events + [e])[..|events|] == events;
  }

  /**
   * The repository stores event symbols upper-cased but looks the history up
   * by the symbol as given, so a symbol with a lower-case letter finds none
   * of the events the repository wrote.
   */
  lemma {:induction false} HistoryMissesLowerCase(events: seq<Event>, symbol: string)
    requires forall k :: 0 <= k < |events| ==> NoLowerCase(events[k].symbol)
    requires !NoLowerCase(symbol)
    ensures HistoryOf(events, symbol) == []
    decreases |events|
  {
    if events != [] {
      var init := events[..|events| - 1];
      assert forall k :: 0 <= k < |init| ==> init[k] == events[k];
      HistoryMissesLowerCase(init, symbol);
      assert events[|events| - 1].symbol != symbol;
    }
  }

  /** The first saved card of a user, in table order. */
  function FirstCardOf(cards: seq<SavedCard>, userId: string): (card: Option<SavedCard>)
    ensures card.Some? ==> card.value in cards && card.value.userId == userId
    ensures card.None? ==> forall c :: c in cards ==> c.userId != userId
  {
    if cards == [] then None
    else if cards[0].userId == userId then Some(cards[0])
    else FirstCardOf(cards[1..], userId)
  }

  /** Saving a card adds it to the user's lookup when the user had none, and changes nothing otherwise. */
  lemma {:induction false} FirstCardOfAppend(cards: seq<SavedCard>, card: SavedCard, userId: string)
    ensures FirstCardOf(cards + [card], userId) ==
      if FirstCardOf(cards, userId).Some? then FirstCardOf(cards, userId)
      else if card.userId == userId then Some(card)
      else None
    decreases |cards|
  {
    if cards != [] {
      assert (cards + [card])[1..] == cards[1..] + [card];
      FirstCardOfAppend(cards[1..], card, userId);
    }
  }

  // ---------------------------------------------------------------------
  // The tables
  // ---------------------------------------------------------------------

  /** The database tables the trading code reads and writes. */
  class Database {
    var watchlist: map<Key, Position>
    var events: seq<Event>
    var savedCards: seq<SavedCard>
    ghost var journal: seq<Write>

    constructor ()
      ensures watchlist == map[] && events == [] && savedCards == [] && journal == []
    {
      watchlist := map[];
      events := [];
      savedCards := [];
      journal := [];
    }

    /** The row of a (user, symbol) pair, if any: a select filtered on both columns. */
    function SelectRow(key: Key): (row: Option<Position>)
      reads this
      ensures row.Some? <==> key in watchlist
      ensures row.Some? ==> row.value == watchlist[key]
    {
      if key in watchlist then Some(watchlist[key]) else None
    }

    method InsertEvent(e: Event)
      modifies this
      ensures events == old(events) + [e]
      ensures watchlist == old(watchlist) && savedCards == old(savedCards)
      ensures journal == old(journal) + [EventInsert(e)]
    {
      events := events + [e];
      journal := journal + [EventInsert(e)];
    }

    /** Insert or replace the row on its (user, symbol) key. */
    method UpsertRow(key: Key, row: Position)
      modifies this
      ensures watchlist == old(watchlist)[key := row]
      ensures events == old(events) && savedCards == old(savedCards)
      ensures journal == old(journal) + [RowUpsert(key)]
    {
      watchlist := watchlist[key := row];
      journal := journal + [RowUpsert(key)];
    }

    /** Set the quantity of the matching row; no row matches, nothing changes. */
    method UpdateAmount(key: Key, amount: int)
      modifies this
      ensures watchlist == if key in old(watchlist)
                           then old(watchlist)[key := old(watchlist)[key].(amount := amount)]
                           else old(watchlist)
      ensures events == old(events) && savedCards == old(savedCards)
      ensures journal == old(journal) + [RowUpdate(key)]
    {
      if key in watchlist {
        watchlist := watchlist[key := watchlist[key].(amount := amount)];
      }
      journal := journal + [RowUpdate(key)];
    }

    method DeleteRow(key: Key)
      modifies this
      ensures watchlist == old(watchlist) - {key}
      ensures events == old(events) && savedCards == old(savedCards)
      ensures journal == old(journal) + [RowDelete(key)]
    {
      watchlist := watchlist - {key};
      journal := journal + [RowDelete(key)];
    }

    method InsertCard(card: SavedCard)
      modifies this
      ensures savedCards == old(savedCards) + [card]
      ensures watchlist == old(watchlist) && events == old(events)
      ensures journal == old(journal) + [CardInsert(card)]
    {
      savedCards := savedCards + [card];
      journal := journal + [CardInsert(card)];
    }
  }

  /** The repository over the tables (server/repositories/stock_repository.py). */
  class StockRepository {
    const db: Database

    constructor (db: Database)
      ensures this.db == db
    {
      this.db := db;
    }

    /** Append one event; the symbol is stored upper-cased, everything else as given. */
    method RecordEvent(symbol: string, kind: EventKind, payload: Payload, userId: string)
      modifies db
      ensures db.events == old(db.events) + [Event(userId, Upper(symbol), kind, payload)]
      ensures db.watchlist == old(db.watchlist) && db.savedCards == old(db.savedCards)
      ensures db.journal == old(db.journal) + [EventInsert(Event(userId, Upper(symbol), kind, payload))]
    {
      db.InsertEvent(Event(userId, Upper(symbol), kind, payload));
    }

    /** The user's rows, or all rows when no user is given. */
    function GetWatchlist(userId: string): map<Key, Position>
      reads db
    {
      RowsOf(db.watchlist, userId)
    }

    /** A symbol's events, newest first. */
    function GetEventsHistory(symbol: string): seq<Event>
      reads db
    {
      HistoryOf(db.events, symbol)
    }

    /** Log `STOCK_ADDED`, then upsert the row at quantity 0. */
    method AddToWatchlist(symbol: string, price: real, userId: string)
      modifies db
      ensures db.events == old(db.events) + [Event(userId, Upper(symbol), StockAdded, AddedPayload(price))]
      ensures db.watchlist == old(db.watchlist)[Key(userId, symbol) :=
                                AddedRow(old(db.SelectRow(Key(userId, symbol))), price)]
      ensures db.savedCards == old(db.savedCards)
      ensures db.journal == old(db.journal) +
        [EventInsert(Event(userId, Upper(symbol), StockAdded, AddedPayload(price))), RowUpsert(Key(userId, symbol))]
    {
      RecordEvent(symbol, StockAdded, AddedPayload(price), userId);
      var key := Key(userId, symbol);
      var current := db.SelectRow(key);
      db.UpsertRow(key, AddedRow(current, price));
    }

    /** Log `STOCK_REMOVED` with zero amounts, then delete the (user, symbol) row. */
    method RemoveFromWatchlist(symbol: string, userId: string)
      modifies db
      ensures db.events == old(db.events) + [Event(userId, Upper(symbol), StockRemoved, RemovedPayload)]
      ensures db.watchlist == old(db.watchlist) - {Key(userId, symbol)}
      ensures db.savedCards == old(db.savedCards)
      ensures db.journal == old(db.journal) +
        [EventInsert(Event(userId, Upper(symbol), StockRemoved, RemovedPayload)), RowDelete(Key(userId, symbol))]
    {
      RecordEvent(symbol, StockRemoved, RemovedPayload, userId);
      db.DeleteRow(Key(userId, symbol));
    }

    /**
     * Log `STOCK_PURCHASED` first, then read the row and upsert it with the
     * weighted average. `cardNumber` is None when no card details are given.
     */
    method BuyStock(symbol: string, price: real, amountToBuy: int, cardNumber: Option<string>,
                    sector: string, userId: string)
      modifies db
      ensures db.events == old(db.events) +
        [Event(userId, Upper(symbol), StockPurchased, PurchasePayload(amountToBuy, price, cardNumber))]
      ensures db.watchlist == old(db.watchlist)[Key(userId, symbol) :=
        BuyRow(old(db.SelectRow(Key(userId, symbol))), amountToBuy, price, sector)]
      ensures db.savedCards == old(db.savedCards)
      ensures db.journal == old(db.journal) +
        [EventInsert(Event(userId, Upper(symbol), StockPurchased, PurchasePayload(amountToBuy, price, cardNumber))),
         RowUpsert(Key(userId, symbol))]
    {
      RecordEvent(symbol, StockPurchased, PurchasePayload(amountToBuy, price, cardNumber), userId);
      var key := Key(userId, symbol);
      var existing := db.SelectRow(key);
      var newTotalAmount := amountToBuy;
      var newAvgPrice := price;
      if existing.Some? {
        var currentAmount := existing.value.amount;
        var currentAvgPrice := existing.value.price;
        if currentAmount + amountToBuy > 0 {
          var totalCost := currentAmount as real * currentAvgPrice + amountToBuy as real * price;
          newTotalAmount := currentAmount + amountToBuy;
          newAvgPrice := Average(totalCost, newTotalAmount);
        }
      }
      assert Position(newTotalAmount, newAvgPrice, Some(sector)) == BuyRow(existing, amountToBuy, price, sector);
      db.UpsertRow(key, Position(newTotalAmount, newAvgPrice, Some(sector)));
    }

    /**
     * Read the row; refuse (changing nothing) without one or when selling
     * more than held; otherwise delete or lower the row, then log
     * `STOCK_SOLD`. Returns the remaining quantity or the error text.
     */
    method SellStock(symbol: string, amountToSell: int, currentPrice: real, userId: string)
      returns (result: Result<int, string>)
      modifies db
      ensures var outcome := SellRow(old(db.SelectRow(Key(userId, symbol))), amountToSell);
        match outcome
        case Err(refusal) =>
          && result == Err(RepositorySellError(symbol, refusal))
          && db.watchlist == old(db.watchlist) && db.events == old(db.events)
          && db.journal == old(db.journal)
        case Ok(row) =>
          && result == Ok(old(db.watchlist)[Key(userId, symbol)].amount - amountToSell)
          && db.watchlist == (if row.None? then old(db.watchlist) - {Key(userId, symbol)}
                              else old(db.watchlist)[Key(userId, symbol) := row.value])
          && db.events == old(db.events) +
               [Event(userId, Upper(symbol), StockSold, SalePayload(amountToSell, currentPrice))]
          && db.journal == old(db.journal) +
               [if row.None? then RowDelete(Key(userId, symbol)) else RowUpdate(Key(userId, symbol)),
                EventInsert(Event(userId, Upper(symbol), StockSold, SalePayload(amountToSell, currentPrice)))]
      ensures db.savedCards == old(db.savedCards)
    {
      var key := Key(userId, symbol);
      var current := db.SelectRow(key);
      if current.None? {
        return Err(RepositorySellError(symbol, NoShares));
      }
      var currentQty := current.value.amount;
      if amountToSell > currentQty {
        return Err(RepositorySellError(symbol, Insufficient(currentQty)));
      }
      var newQty := currentQty - amountToSell;
      if newQty <= 0 {
        db.DeleteRow(key);
      } else {
        db.UpdateAmount(key, newQty);
      }
      RecordEvent(symbol, StockSold, SalePayload(amountToSell, currentPrice), userId);
      result := Ok(newQty);
    }
  }
}
