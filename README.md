# Stock-quotes assistant: trading core in Dafny

This project models the trading core of a stock-quotes application with an
AI assistant. The application has a FastAPI server over Supabase tables and a
PySide6 desktop client. The model covers three parts of it.

- **The position ledger.** The server keeps one watchlist row per (user,
  symbol): a quantity, an average cost and a sector. Next to the rows is an
  append-only log of stock events. Buying writes a `STOCK_PURCHASED` event
  and then upserts the row with the quantity-weighted average cost. Selling
  refuses a missing row or an oversell. Otherwise it deletes the row or lowers
  its quantity, then logs `STOCK_SOLD`. The trade routes save a card before a
  purchase, run their own copy of the sell logic, and look up a user's first
  saved card. The tables are the fields of the class `Ledger.Database`. A
  ghost journal records every write in order, so contracts can state which
  write comes first.
- **The assistant.** The language-model executor is an oracle. What it
  returns is decoded into one of three response kinds:
  - `form`, from the `<<OPEN_INVESTMENT_FORM>>` tag;
  - `trade_confirmation`, from a `<<CONFIRM_BUY:S,A,P>>` tag whose fields
    coerce;
  - `chat`, for everything else.

  The model also covers:
  - the parsing-error observation;
  - per-user memory creation;
  - the keyword intent classifier;
  - ticker cleaning and the name-search fallback;
  - the portfolio summary;
  - the client's `AdvisorModel`.
- **The client trade logic.**
  - The purchase validator.
  - Saved-card normalisation.
  - The trade form (`TradeView`). This is a class with a quantity spin box
    that clamps into a mode-dependent range, a live total, a combo box of
    saved cards, and ordered checks before the trade data is emitted.
  - The AI-basket controller. It allocates quantities from percentages of a
    budget and keeps a running total. Its checkout sends one buy per row and
    asks to save the card only until the first accepted order.

Python's string operations are modelled in `Strings`:
- `in`, `split`, `strip`, ASCII `upper`/`lower`, `replace(c, "")` and
  negative slicing;
- `int(...)` on optional whitespace, an optional sign and decimal digits;
- `float(...)` on optional whitespace, an optional sign, and digits with at
  most one decimal point, read as an exact `real`.

Prices are exact reals. Network answers, quotes, HTTP status codes and what
the user does with a dialog are parameters of the model.

The source's quirks are kept as written:
- The repository stores event symbols upper-cased but rows and history
  queries use the symbol as given (`Ledger.HistoryMissesLowerCase`).
- The sell route logs its event under the request's symbol exactly as sent.
- Negative quantities are not rejected.
- Client-side sectors are always `Technology` (`TradeModel.SectorIsAlwaysTechnology`).
- The portfolio tool lets an empty user id through its placeholder check,
  and the watchlist query then drops its user filter, so the summary lists
  every user's rows (`AgentTools.EmptyIdListsEveryUser`).

## Model

| member | source | states |
|---|---|---|
| Ledger.BuyKeepsCost | server/repositories/stock_repository.py:102-113 | When the combined quantity is positive, the new quantity is the sum, and quantity × average equals the old cost plus the purchase's cost |
| Ledger.BuyRowCases | server/repositories/stock_repository.py:99-122 | The row always takes the purchase's sector; with a row and a positive combined quantity the quantities add; otherwise the purchase's own quantity and price replace the row |
| Ledger.BuyOpensRow | server/repositories/stock_repository.py:99-100 | A first purchase opens the row at its own quantity and price |
| Ledger.BuyAverageBetween | server/repositories/stock_repository.py:108-113 | Buying at or above the old average keeps the new average between the old average and the purchase price |
| Ledger.AfterBuysIsWeightedAverage | server/repositories/stock_repository.py:99-122 | From no row, positive purchases leave the total quantity at average Σqᵢpᵢ / Σqᵢ |
| Ledger.TotalsOfPermutation | server/repositories/stock_repository.py:102-113 | The summed quantity and summed cost q·p of a list of purchases do not depend on their order |
| Ledger.AfterBuysOrderIndependent | server/repositories/stock_repository.py:99-122 | Any reordering (same multiset) of the same positive purchases leaves the same row |
| Ledger.AfterBuysSector | server/repositories/stock_repository.py:116-122 | After any purchase the row carries the purchase's sector |
| Ledger.SellRefusedIff | server/repositories/stock_repository.py:157-164 | A sale is refused exactly when there is no row or more is sold than held; an oversell reports the held amount |
| Ledger.SellRow | server/repositories/stock_repository.py:157-176 | A deletion happens only when exactly the held amount is sold; a kept row is the old row with only its quantity lowered by the amount sold, and that quantity is positive |
| Ledger.PartialSellKeepsCost | server/repositories/stock_repository.py:166-176 | A partial sale lowers only the quantity, by the amount sold; average cost and sector are unchanged |
| Ledger.SellAllDeletes | server/repositories/stock_repository.py:166-172 | Selling exactly the held amount deletes the row, whatever that amount (a negative one included) |
| Ledger.RepositorySellErrorIdentifiesRefusal | server/repositories/stock_repository.py:157-164 | Two refusal messages for a symbol are equal exactly when the refusals are: a missing row and an oversell read differently, and an oversell message tells the amount held |
| Ledger.BuyBuySellScenario | server/repositories/stock_repository.py:60-194 | 10 at 100 then 5 at 130 gives 15 at 110; selling 15 deletes the row; selling 16 is refused with 15 available |
| Ledger.PaymentInfo | server/repositories/stock_repository.py:82-84 | A purchase event's payment info is the card's last four characters, or `N/A` without card details |
| Ledger.PaymentInfoLastFour | server/repositories/stock_repository.py:82-84 | A card number of four or more characters shows exactly its last four |
| Ledger.RowsOf | server/repositories/stock_repository.py:22-26 | `get_watchlist` selects exactly the user's rows, unchanged, or every row when no user is given |
| Ledger.RowsOfOtherUser | server/repositories/stock_repository.py:22-26 | Writing or deleting one user's row leaves every other user's watchlist unchanged |
| Ledger.HistoryOf | server/repositories/stock_repository.py:51-58 | `get_events_history` returns only logged events of that symbol, no more than the log holds |
| Ledger.HistoryOfAppend | server/repositories/stock_repository.py:51-58 | A new event comes first in its symbol's history (newest first); other symbols' histories do not change |
| Ledger.HistoryMissesLowerCase | server/repositories/stock_repository.py:51-58 | Events are stored upper-cased, so a history query with a lower-case letter finds none of them |
| Strings.UpperHasNoLowerCase | server/repositories/stock_repository.py:15 | An upper-cased symbol holds no lower-case letter |
| Ledger.FirstCardOf | server/api/trade_routes.py:144-158 | The card found belongs to the user and is in the table; none is found only when the user has no card |
| Ledger.FirstCardOfAppend | server/api/trade_routes.py:45-54 | Saving a card makes it the user's lookup result only when the user had no card before |
| Ledger.Database.SelectRow | server/repositories/stock_repository.py:91-97 | The select on (symbol, user) finds the row exactly when it exists |
| Ledger.Database.InsertEvent | server/repositories/stock_repository.py:20 | Appends the event; rows and cards unchanged |
| Ledger.Database.UpsertRow | server/repositories/stock_repository.py:125-129 | Inserts or replaces the row on its (user, symbol) key |
| Ledger.Database.UpdateAmount | server/repositories/stock_repository.py:174-176 | Sets only the quantity of the matching row |
| Ledger.Database.DeleteRow | server/repositories/stock_repository.py:170-172 | Removes the (user, symbol) row, nothing else |
| Ledger.Database.InsertCard | server/api/trade_routes.py:46-54 | Appends the card; rows and events unchanged |
| Ledger.StockRepository.RecordEvent | server/repositories/stock_repository.py:9-20 | Appends one event whose symbol is upper-cased and whose user, kind and payload are as given |
| Ledger.StockRepository.AddToWatchlist | server/repositories/stock_repository.py:28-37 | Logs `STOCK_ADDED` (`manual_add`), then upserts the row at quantity 0 and the given price |
| Ledger.StockRepository.RemoveFromWatchlist | server/repositories/stock_repository.py:39-49 | Logs `STOCK_REMOVED` with zero amounts, then deletes only the (user, symbol) row |
| Ledger.StockRepository.BuyStock | server/repositories/stock_repository.py:60-133 | Journal is event then upsert; the event holds total price·amount and the payment info; the row becomes the weighted-average row |
| Ledger.StockRepository.SellStock | server/repositories/stock_repository.py:135-194 | A refusal changes nothing and returns its message; otherwise delete or lower the row, then one `STOCK_SOLD` event with total amount·price, and return the remaining quantity |
| TradeRoutes.BuyStock | server/api/trade_routes.py:40-71 | The card is inserted first, only when `save_card` is set; then the repository buy with the card, sector and user; the success message |
| TradeRoutes.SellStock | server/api/trade_routes.py:74-133 | Missing row or oversell: HTTP 500 with the route's message, tables unchanged; otherwise delete or lower the row, then one event under the symbol as sent |
| TradeRoutes.GetSavedCard | server/api/trade_routes.py:136-162 | Status `error` exactly when the lookup fails, with no data; otherwise the user's card, none only when the user has no card |
| Agent.WireName | server/models/agent_dto.py:5-10 | Every response kind goes on the wire as `chat`, `form` or `trade_confirmation` |
| Agent.WireNameInjective | server/models/agent_dto.py:7 | Distinct kinds have distinct wire names |
| Agent.HandleParsingError | server/services/agent_service.py:59-65 | The fixed wrong-format observation when either marker occurs, else `Observation: Error: ` plus the error; always starts `Observation: ` |
| Agent.WrongFormatObservationIff | server/services/agent_service.py:59-65 | The fixed corrective observation comes back exactly when the error mentions one of the two format markers; an echoed error never reads as it |
| Agent.DecodeFields | server/services/agent_service.py:113-118 | A payload exists exactly when there are at least three fields and fields 1 and 2 coerce as int and float; it is field 0 verbatim with those two values |
| Agent.DecodeFieldsIgnoresExtra | server/services/agent_service.py:113-118 | Fields after the third do not change the decoding |
| Agent.InterpretPayload | server/services/agent_service.py:111-122 | A trade confirmation exactly when the comma-split payload decodes; it carries that payload and the message `Confirm buy: {field 1} shares of {field 0}`; otherwise the chat reply with the whole text |
| Agent.DecodeOutput | server/services/agent_service.py:106-122 | Form iff the form tag occurs; a trade needs the buy tag and carries a payload; only trades carry one; chat carries the raw output |
| Agent.ResponseFor | server/services/agent_service.py:102-130 | An executor failure gives chat with the uuid or the generic message and no payload; an output is decoded |
| Agent.EnhancedInput | server/services/agent_service.py:94-100 | The executor's input starts with `User Request: ` and the user's text, and it contains `My User ID is: ` followed by the user's id |
| Agent.BuyPayloadOfTag | server/services/agent_service.py:112 | The payload extracted from text around one buy tag is the text between `<<CONFIRM_BUY:` and `>>` |
| Agent.BuyPayloadToEnd | server/services/agent_service.py:112 | With no `>>` after the buy tag, the payload is the rest of the text |
| Agent.DecodeTagged | server/services/agent_service.py:107-122 | Text around one buy tag and no form tag is decoded from that tag's payload alone |
| Agent.DecodeConfirmBuy | server/services/agent_service.py:110-118 | Tag round trip: a tag with plain fields decodes to a trade with the symbol verbatim, the coerced amount and price, and the `Confirm buy:` message |
| Agent.DecodeBadNumber | server/services/agent_service.py:119-122 | An amount that is not an int or a price that is not a float degrades to chat with the whole text |
| Agent.DecodeTooFewFields | server/services/agent_service.py:119-122 | A tag with two fields degrades to chat with the whole text |
| Agent.FormTagFirst | server/services/agent_service.py:107-110 | The form tag wins over a later buy tag |
| Agent.AgentService.GetMemoryForUser | server/services/agent_service.py:51-57 | A memory is created only on a user's first call; later calls return the same one; other users' entries are untouched |
| Agent.AgentService.ProcessRequest | server/services/agent_service.py:89-130 | The response is `ResponseFor` of what the executor returns for the enhanced input; the user has a memory afterwards, and nothing else in the map changes |
| AgentTools.IdentifyIntent | server/services/agent_tools.py:69-77 | The label is always TRADING, INVESTMENT_ADVICE or CHAT |
| AgentTools.TradingWordWins | server/services/agent_tools.py:72-74 | A trading word in any letter case gives TRADING, whatever else the text says |
| AgentTools.AdviceWordWithoutTrading | server/services/agent_tools.py:75-76 | An advice word without a trading word gives INVESTMENT_ADVICE |
| AgentTools.NoKeywordIsChat | server/services/agent_tools.py:77 | Text with no keyword gives CHAT |
| AgentTools.IntentIgnoresCase | server/services/agent_tools.py:72 | Upper-casing the input does not change the label |
| AgentTools.CleanTicker | server/services/agent_tools.py:34 | The cleaned ticker has no point, no lower-case letter, and is no longer than the input |
| AgentTools.CleanTickerKeepsCanonical | server/services/agent_tools.py:34 | A trimmed, point-free, upper-case ticker is looked up unchanged |
| AgentTools.CleanTickerOfDotted | server/services/agent_tools.py:34 | `a.b` in any case is looked up as `A` + `B` upper-cased, with the point removed |
| AgentTools.NotFoundNamesInput | server/services/agent_tools.py:52 | The failure reply quotes the original, uncleaned input |
| AgentTools.RepliesDiffer | server/services/agent_tools.py:49-52 | Only the failure reply starts with `Error` |
| AgentTools.GetStockPrice | server/services/agent_tools.py:29-52 | First lookup on the cleaned input; the search is consulted exactly when that finds nothing; a second lookup only for a non-empty search result; the reply comes from the last lookup |
| AgentTools.HoldingLinesListEveryRow | server/services/agent_tools.py:64-67 | Every row has its line in the summary |
| AgentTools.AppendHoldingLines | server/services/agent_tools.py:64-67 | The loop leaves the header followed by one line per row, in row order |
| AgentTools.CheckMyPortfolio | server/services/agent_tools.py:54-67 | A placeholder id is rejected without a query; when the rows `get_watchlist` selects for the id are none, the empty reply; otherwise the header plus one line per listed row |
| AgentTools.PortfolioListsEveryRow | server/services/agent_tools.py:60-67 | Every row the query selects for the id has its line in the summary |
| AgentTools.EmptyIdListsEveryUser | server/services/agent_tools.py:57-67 | An empty id passes the placeholder check, and every user's row then has its line in the summary |
| AgentTools.IsPlaceholderUserId | server/services/agent_tools.py:57 | Only an id of 7 to 9 characters can be taken for a placeholder, so a real UUID never is |
| AgentTools.HoldingLines | server/services/agent_tools.py:64-66 | The lines are empty exactly when there are no rows |
| TradeModel.ValidatePurchaseInput | client/modules/trade/models/trade_model.py:10-19 | Empty iff all checks pass; each message present iff its check fails; one message per failing check, in the fixed order; missing number reads `""`, missing amount 0 |
| TradeModel.GetSavedCards | client/modules/trade/models/trade_model.py:36-46 | Success iff the answer says success; at most one card; a card exactly for a present, non-empty record, and it is that record |
| TradeModel.ClientSeesFirstSavedCard | client/modules/trade/models/trade_model.py:36-46 | End to end with the card route: the client's list is the user's first saved card, or empty when there is none or the lookup fails |
| TradeModel.SectorIsAlwaysTechnology | client/modules/trade/models/trade_model.py:21-29 | For quotes shaped as the quote service builds them (no `sector` key), or no quote, the sector is `Technology` |
| TradeModel.GetStockSector | client/modules/trade/models/trade_model.py:21-29 | The quote's `sector` when it has one; `Technology` without a quote or without that key |
| TradeUi.Clamp | client/modules/trade/view/trade_view.py:110-114 | The spin box value is the nearest value within the range |
| TradeUi.Truncate | client/modules/trade/view/trade_view.py:250 | `int(available_qty)` truncates toward zero |
| TradeUi.Limit | client/modules/trade/view/trade_view.py:153-176 | A line edit's text is the prefix of what was set, no longer than its maximum length |
| TradeUi.PyIndex | client/modules/trade/view/trade_view.py:296-297 | Python list indexing: defined exactly for -n ≤ k < n, at the position congruent to k |
| TradeUi.ExpiryMonthOfDate | client/modules/trade/view/trade_view.py:313-318 | `12/25` reads month 12 |
| TradeUi.ExpiryMonthOfEmpty | client/modules/trade/view/trade_view.py:313-318 | An empty date has no month, so the form warns instead of emitting |
| TradeUi.Submit | client/modules/trade/view/trade_view.py:303-339 | Emits iff the stripped holder is non-empty, the number has 16 characters and the month is 1..12; otherwise the first failing check's warning; the emitted data is the form's, priced at the unit price |
| TradeUi.TradeView.HandleAction | client/modules/trade/view/trade_view.py:303-339 | The view emits exactly when the stripped holder is not empty, the card number has 16 characters and the month is valid; what it emits carries the view's symbol, quantity and unit price |
| TradeUi.TradeView.constructor | client/modules/trade/view/trade_view.py:22-28 | Buy mode, quantity 1 of 1..100000, total 0, one combo entry, empty card fields |
| TradeUi.TradeView.UpdateTotal | client/modules/trade/view/trade_view.py:259-261 | The total is quantity × unit price |
| TradeUi.TradeView.SpinSetValue | client/modules/trade/view/trade_view.py:110-116 | The value is clamped into the range; a change recomputes the total |
| TradeUi.TradeView.SpinSetRange | client/modules/trade/view/trade_view.py:113 | A maximum below the minimum becomes the minimum; the value is clamped |
| TradeUi.TradeView.IncreaseQty | client/modules/trade/view/trade_view.py:210-211 | One more unless at the maximum; the form invariant holds |
| TradeUi.TradeView.DecreaseQty | client/modules/trade/view/trade_view.py:213-216 | One less only from above 1; never below 1 |
| TradeUi.TradeView.SetMode | client/modules/trade/view/trade_view.py:218-238 | Records the mode; buy mode sets the range 1..100000; sell mode leaves range and quantity alone |
| TradeUi.TradeView.SellRange | client/modules/trade/view/trade_view.py:249-251 | In sell mode the range becomes 1..int(available), or just 1 when that is below 1, and the quantity 1 |
| TradeUi.TradeView.SetStockData | client/modules/trade/view/trade_view.py:240-257 | Records symbol, price, buy price and event; in sell mode the range is 1..max(1, int(available)) and the quantity 1; the total uses the new price |
| TradeUi.TradeView.OnCardSelected | client/modules/trade/view/trade_view.py:290-301 | Index 0 clears the fields; index k loads card k-1 when it exists; otherwise the fields are unchanged |
| TradeUi.TradeView.SelectFirstCard | client/modules/trade/view/trade_view.py:284-288 | Selecting entry 1 fills the fields from the first card |
| TradeUi.LabelsAt | client/modules/trade/view/trade_view.py:278-280 | Combo label k is `**** ` and the last four characters of card k's number, `????` when it has none |
| TradeUi.ComboItems | client/modules/trade/view/trade_view.py:270-280 | The combo holds `Enter New Card` and then one label per card, in the cards' order |
| TradeUi.TradeView.RebuildCombo | client/modules/trade/view/trade_view.py:263-282 | The cards are stored and the combo rebuilt with entry 0 current; the view stays consistent |
| TradeUi.TradeView.LoadSavedCards | client/modules/trade/view/trade_view.py:263-288 | One `Enter New Card` entry then one `**** last4` per card; with a card, entry 1 is selected and the first card is filled in; with none the fields are unchanged |
| TradeUi.TradeView.EmittedMatchesView | client/modules/trade/view/trade_view.py:326-339 | The emitted trade carries the spin box's quantity and the unit price the view holds |
| TradeUi.TradeView.EmittedTradeMatchesTotal | client/modules/trade/view/trade_view.py:326-339 | An emitted trade has a quantity within 1..maximum whose cost at the sent price is the displayed total |
| BasketCheckout.InitialQuantity | client/modules/trade/controller/basket_controller.py:84-85 | The quantity is the floor of share / price |
| BasketCheckout.RowFor | client/modules/trade/controller/basket_controller.py:71-100 | No row exactly for a missing or empty symbol, a non-positive percentage, or a non-positive price; otherwise the fetched price and a quantity within 0..10000 |
| BasketCheckout.AllocateAtMostOnePerItem | client/modules/trade/controller/basket_controller.py:67-119 | The table `populate_table` builds has at most one row per basket item |
| BasketCheckout.AllocateConcat | client/modules/trade/controller/basket_controller.py:71-116 | Allocation works item by item: the table of a concatenation is the concatenation of the tables |
| BasketCheckout.AllocatedRowsWellFormed | client/modules/trade/controller/basket_controller.py:67-119 | No more rows than items; each row has a positive price, a quantity in 0..10000, and comes from a selectable item |
| BasketCheckout.RowWithinShare | client/modules/trade/controller/basket_controller.py:84-100 | With a budget of at least 0, a row's initial cost does not exceed its item's budget share |
| BasketCheckout.ShareSumIsPercentOfBudget | client/modules/trade/controller/basket_controller.py:84 | The shares sum to the budget times the summed percentages |
| BasketCheckout.AllocationWithinShares | client/modules/trade/controller/basket_controller.py:67-119 | The initial table costs at most the sum of the selected items' shares |
| BasketCheckout.AllocationWithinBudget | client/modules/trade/controller/basket_controller.py:67-119 | A basket whose percentages sum to at most 100 starts within the budget |
| BasketCheckout.OrdersTotalIsRowsTotal | client/modules/trade/controller/basket_controller.py:153-159 | The orders cost what the whole table shows, since the rows left out hold no shares |
| BasketCheckout.OrdersOf | client/modules/trade/controller/basket_controller.py:153-159 | At most one order per table row |
| BasketCheckout.OrdersArePositiveRows | client/modules/trade/controller/basket_controller.py:153-159 | Every order has a positive amount and is a row of the table |
| BasketCheckout.SaveFlagUntilFirstSuccess | client/modules/trade/controller/basket_controller.py:209-223 | After an accepted order no later order asks to save the card; until then every order carries the form's flag |
| BasketCheckout.ConfirmedCheckout | client/modules/trade/controller/basket_controller.py:182-193 | Confirmed data exists only when the user entered something; it is one unit at the basket total, with the user's save-card choice |
| BasketCheckout.NewCheckoutDialog | client/modules/trade/controller/basket_controller.py:14-36 | A buy-mode trade form at the basket total, quantity 1, save-card checked, no card filled in |
| BasketCheckout.OpenCheckout | client/modules/trade/controller/basket_controller.py:182-185 | With saved cards, the form opens with the first card filled in |
| BasketCheckout.RunCheckout | client/modules/trade/controller/basket_controller.py:182-193 | The dialog yields the form's emitted data when the checks pass, and nothing when closed or when a check fails |
| BasketCheckout.SendOrders | client/modules/trade/controller/basket_controller.py:196-229 | One payload per order, in order, with the quote's sector and the save flag until the first success; the count of accepted orders |
| BasketCheckout.BasketController.constructor | client/modules/trade/controller/basket_controller.py:51-60 | The controller fills its table from the basket on construction |
| BasketCheckout.BasketController.PopulateTable | client/modules/trade/controller/basket_controller.py:67-119 | The rows are rebuilt as the allocation of the basket; the total shown is their sum |
| BasketCheckout.BasketController.UpdateTotals | client/modules/trade/controller/basket_controller.py:131-147 | The total is Σ quantity·price over the rows |
| BasketCheckout.BasketController.SetRowQuantity | client/modules/trade/controller/basket_controller.py:98-102 | A row's spin box clamps into 0..10000 and the total follows |
| BasketCheckout.BasketController.CollectOrders | client/modules/trade/controller/basket_controller.py:150-159 | The orders are the rows with positive quantity, and the total is what they cost |
| BasketCheckout.AppendOrder | client/modules/trade/controller/basket_controller.py:153-159 | One loop step: a row with positive quantity adds one order (sector `Unknown`, since basket rows carry no sector) and its cost to the running total; any other row leaves both unchanged, and the total stays the cost of the orders |
| BasketCheckout.BasketController.ExecuteAllTrades | client/modules/trade/controller/basket_controller.py:149-246 | No orders or a cancelled checkout sends nothing; otherwise one payload per order and the count of accepted orders |
| BasketCheckout.BasketController.CheckoutChargesDisplayedTotal | client/modules/trade/controller/basket_controller.py:149-182 | The checkout charges exactly the total the table shows |
| AdvisorModule.FromJson | client/modules/advisor/models/advisor_module.py:7-14 | A missing kind reads `chat`, a missing message `""`; present fields and the payload are copied unchanged |
| AdvisorModule.IsTrade | client/modules/advisor/models/advisor_module.py:17-18 | Holds exactly for the server's wire name of a trade confirmation, and never together with `is_form` |
| AdvisorModule.IsForm | client/modules/advisor/models/advisor_module.py:20-21 | Holds exactly for the server's wire name of a form |
| AdvisorModule.NeverTradeAndForm | client/modules/advisor/models/advisor_module.py:17-21 | A response is never both a trade and a form |
| AdvisorModule.MissingKindIsChat | client/modules/advisor/models/advisor_module.py:11 | A response without a kind is neither a trade nor a form |
| AdvisorModule.ReadsServerResponse | client/modules/advisor/models/advisor_module.py:7-21 | Reading a server response loses nothing; `is_trade` and `is_form` hold exactly for the server's trade confirmations and forms |
| AdvisorModule.ClientTradeHasPayload | client/modules/advisor/models/advisor_module.py:17-18 | Whatever the executor did, the client sees a trade exactly when a payload is present |
| Strings.IndexOfFirst | server/services/agent_service.py:107 | Python `in`: the search finds the first occurrence, and reports none only when there is none |
| Strings.Split | server/services/agent_service.py:112-113 | `split` gives at least one piece; the pieces hold no separator and join back to the input |
| Strings.SplitCutsLeftmost | server/services/agent_service.py:112-113 | Every cut is at the leftmost occurrence: no separator starts inside a piece, even one running into the next separator |
| Strings.StripIsTrimmedSlice | server/services/agent_tools.py:34 | `strip` keeps a slice of the input with no whitespace at either end |
| Strings.ParseIntOfIntToString | server/services/agent_service.py:117 | `int(str(i)) == i` |
| Strings.ParseDecimalOfFixedPoint | server/services/agent_service.py:117 | `float("W.F")` is W plus F over 10 to the number of F's digits |
| Strings.ParseDecimalOfIntToString | server/services/agent_service.py:117 | `float(str(i)) == i` |

## Left out

- The LangChain executor, its ReAct loop, its prompts and `max_iterations`. The executor is an oracle (`invoke`) returning an output or the text of an exception.
- Agent.AgentService.ProcessRequest: the executor's writes into the user's conversation memory are not modelled. The memory is created but its turns are not tracked.
- Supabase I/O. The tables are in-memory fields. A store failure inside the buy route (its HTTP 500 path) is not modelled. A failure of the card lookup is the `lookupFails` input.
- The read-then-upsert race in `buy_stock`. The operations are modelled one at a time.
- yfinance quotes, the Yahoo ticker search, and every HTTP call of the client. They are function parameters: `fetch`, `lookup`, `search`, `quoteOf`, and `statusOf` for the status code of each buy. A raised request counts as a failure, like any status other than 200 or 201.
- Floating point. Prices, averages and totals are exact reals. Python `float()` accepting exponents, `inf`, `nan` and underscores is outside the modelled subset, and so is `int()` with underscores or non-ASCII digits. The `:.2f` formatting of labels is not modelled, so labels are modelled by the amount they show. Printing a price in the portfolio summary is the `showPrice` parameter.
- Unicode case mapping. `upper`/`lower` are modelled on ASCII letters only.
- `None` where the source allows it: a missing user id in the repository, and a `null` kind or message in the advisor's JSON. User ids are strings; an empty one stands for "no user" in `get_watchlist`.
- The expiration line edit's input mask, the validators applied while typing, and all layout, styling and message boxes. Warnings are modelled as the `Warning` outcome with its text.
- BasketCheckout.RunCheckout: a dialog whose checks fail and that the user then corrects or closes is modelled as cancelled. The user's retries inside the open dialog are not modelled.
- The success and failure message boxes at the end of the basket checkout and the portfolio refresh after it. The model returns the success count instead.
- The order of rows returned by the database. `get_saved_card` takes the first card in table order.
- The default arguments of `set_stock_data`. The checkout passes them explicitly (available 0, buy price 0, no event).
- Ledger.StockRepository.GetWatchlist and Ledger.StockRepository.GetEventsHistory: specified through `Ledger.RowsOf` and `Ledger.HistoryOf`, whose contracts the table lists.
- TradeModel.SectorIsAlwaysTechnology: the fact holds for quotes as the server's quote service builds them. A quote answer of any other shape is not covered.
