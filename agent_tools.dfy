/**
 * The assistant's tools (server/services/agent_tools.py): the keyword intent
 * classifier, the ticker lookup with its name-search fallback, and the
 * portfolio summary. The quote service and the ticker search are oracles
 * passed in as functions; the watchlist query reads the ledger's table.
 */
module AgentTools {
  import opened Wrappers
  import opened Strings
  import Ledger

  const TradeWords: seq<string> := ["buy", "sell", "trade"]
  const AdviceWords: seq<string> := ["plan", "offer", "advise", "suggestion", "recommend", "advice"]

  const Trading: string := "TRADING"
  const InvestmentAdvice: string := "INVESTMENT_ADVICE"
  const ChatIntent: string := "CHAT"

  /** Python's `any(word in text for word in words)`. */
  predicate MentionsAny(text: string, words: seq<string>)
  {
    exists k :: 0 <= k < |words| && Contains(text, words[k])
  }

  /** The intent label of a request, from keywords in its lower-cased text. */
  function IdentifyIntent(userInput: string): (intent: string)
    ensures intent == Trading || intent == InvestmentAdvice || intent == ChatIntent
  {
    var text := Lower(userInput);
    if MentionsAny(text, TradeWords) then Trading
    else if MentionsAny(text, AdviceWords) then InvestmentAdvice
    else ChatIntent
  }

  /** A trading word in any letter case makes the request TRADING, whatever else it says. */
  lemma TradingWordWins(before: string, word: string, after: string)
    requires Lower(word) in TradeWords
    ensures IdentifyIntent(before + word + after) == Trading
  {
    LowerConcat(before + word, after);
    LowerConcat(before, word);
    ContainsInMiddle(Lower(before), Lower(word), Lower(after));
    var k :| 0 <= k < |TradeWords| && TradeWords[k] == Lower(word);
    assert Contains(Lower(before + word + after), TradeWords[k]);
  }

  /** An advice word gives INVESTMENT_ADVICE when no trading word is present. */
  lemma AdviceWordWithoutTrading(before: string, word: string, after: string)
    requires Lower(word) in AdviceWords
    requires !MentionsAny(Lower(before + word + after), TradeWords)
    ensures IdentifyIntent(before + word + after) == InvestmentAdvice
  {
    LowerConcat(before + word, after);
    LowerConcat(before, word);
    ContainsInMiddle(Lower(before), Lower(word), Lower(after));
    var k :| 0 <= k < |AdviceWords| && AdviceWords[k] == Lower(word);
    assert Contains(Lower(before + word + after), AdviceWords[k]);
  }

  /** Text with none of the keywords is CHAT. */
  lemma NoKeywordIsChat(userInput: string)
    requires forall k :: 0 <= k < |TradeWords| ==> !Contains(Lower(userInput), TradeWords[k])
    requires forall k :: 0 <= k < |AdviceWords| ==> !Contains(Lower(userInput), AdviceWords[k])
    ensures IdentifyIntent(userInput) == ChatIntent
  {
  }

  /** The classifier ignores letter case. */
  lemma IntentIgnoresCase(userInput: string)
    ensures IdentifyIntent(Upper(userInput)) == IdentifyIntent(userInput)
  {
    LowerOfUpper(userInput);
  }

  /** The ticker text looked up first: trimmed, upper-cased, every `.` removed. */
  function CleanTicker(symbol: string): (clean: string)
    ensures '.' !in clean
    ensures forall x :: x in clean ==> !('a' <= x <= 'z')
    ensures |clean| <= |symbol|
  {
    var stripped := Strip(symbol);
    StripIsTrimmedSlice(symbol);
    var upper := Upper(stripped);
    UpperHasNoLowerCase(stripped);
    RemoveAll(upper, '.')
  }

  /** A ticker already in canonical form is looked up as it is. */
  lemma CleanTickerKeepsCanonical(symbol: string)
    requires symbol == [] || (!IsSpace(symbol[0]) && !IsSpace(symbol[|symbol| - 1]))
    requires '.' !in symbol
    requires forall k :: 0 <= k < |symbol| ==> !('a' <= symbol[k] <= 'z')
    ensures CleanTicker(symbol) == symbol
  {
    StripUnchanged(symbol);
    var upper := Upper(symbol);
    assert upper == symbol by {
      forall k | 0 <= k < |symbol| ensures upper[k] == symbol[k] {
        assert !('a' <= symbol[k] <= 'z');
      }
    }
    assert RemoveAll(upper, '.') == symbol;
  }

  /** Upper-casing neither adds nor removes decimal points. */
  lemma UpperKeepsPointFree(a: string)
    requires '.' !in a
    ensures '.' !in Upper(a)
  {
    forall k | 0 <= k < |a| ensures Upper(a)[k] != '.' { assert a[k] != '.'; }
  }

  /** Removing the one point of `A.B`. */
  lemma RemovePointBetween(a: string, b: string)
    requires '.' !in a && '.' !in b
    ensures RemoveAll(a + "." + b, '.') == a + b
  {
    var point := ".";
    RemoveAllConcat(a + point, b, '.');
    RemoveAllConcat(a, point, '.');
    assert RemoveAll(point, '.') == [] by {
      assert point[0] == '.' && point[1..] == [];
    }
    assert RemoveAll(a + point, '.') == a;
  }

  lemma UpperOfPoint()
    ensures Upper(".") == "."
  {
    var u := Upper(".");
    assert |u| == 1 && u[0] == UpperChar('.');
  }

  lemma UpperAroundPoint(a: string, b: string)
    ensures Upper(a + "." + b) == Upper(a) + "." + Upper(b)
  {
    UpperConcat(a + ".", b);
    UpperConcat(a, ".");
    UpperOfPoint();
  }

  lemma StripAroundPoint(a: string, b: string)
    requires a != [] && b != [] && !IsSpace(a[0]) && !IsSpace(b[|b| - 1])
    ensures Strip(a + "." + b) == a + "." + b
  {
    var s := a + "." + b;
    assert s[0] == a[0] && s[|s| - 1] == b[|b| - 1];
    StripUnchanged(s);
  }

  /**
   * A dotted class ticker in any letter case, such as `brk.b`, is looked up
   * as its upper-cased parts joined (`BRKB`).
   */
  lemma CleanTickerOfDotted(a: string, b: string)
    requires a != [] && b != [] && !IsSpace(a[0]) && !IsSpace(b[|b| - 1])
    requires '.' !in a && '.' !in b
    ensures CleanTicker(a + "." + b) == Upper(a) + Upper(b)
  {
    StripAroundPoint(a, b);
    UpperAroundPoint(a, b);
    UpperKeepsPointFree(a);
    UpperKeepsPointFree(b);
    RemovePointBetween(Upper(a), Upper(b));
  }

  /** A live quote as the quote service returns it; the price is the text Python prints for it. */
  datatype Quote = Quote(symbol: string, priceText: string)

  function PriceReply(q: Quote): string
  {
    "The current price of " + q.symbol + " is $" + q.priceText + "."
  }

  const NotFoundLead: string := "Error: I couldn't find a stock named "
  const NotFoundTail: string := ". Please try providing the exact ticker symbol."

  function NotFoundReply(symbol: string): string
  {
    NotFoundLead + ("'" + symbol + "'") + NotFoundTail
  }

  /** The failure reply names the text the caller gave, before cleaning, in quotes. */
  lemma NotFoundNamesInput(symbol: string)
    ensures Contains(NotFoundReply(symbol), "'" + symbol + "'")
  {
    ContainsInMiddle(NotFoundLead, "'" + symbol + "'", NotFoundTail);
  }

  /** A price reply and a failure reply are never confused: only the failure starts with `Error`. */
  lemma RepliesDiffer(q: Quote, symbol: string)
    ensures NotFoundReply(symbol)[..5] == "Error"
    ensures PriceReply(q)[..5] != "Error"
  {
    assert NotFoundReply(symbol)[..5] == NotFoundLead[..5];
    assert PriceReply(q)[0] == 'T';
  }

  /**
   * The price tool. `lookup` is the quote service (None when it finds no
   * data), `search` the ticker search by company name. Returns the reply,
   * the keys passed to the quote service in order, and whether the search
   * was consulted.
   */
  method GetStockPrice(symbol: string, lookup: string -> Option<Quote>, search: string -> Option<string>)
    returns (reply: string, lookedUp: seq<string>, searched: bool)
    ensures 1 <= |lookedUp| <= 2 && lookedUp[0] == CleanTicker(symbol)
    ensures searched <==> lookup(CleanTicker(symbol)).None?
    ensures |lookedUp| == 2 <==>
      searched && search(CleanTicker(symbol)).Some? && search(CleanTicker(symbol)).value != []
    ensures |lookedUp| == 2 ==> lookedUp[1] == search(CleanTicker(symbol)).value
    ensures reply == match lookup(lookedUp[|lookedUp| - 1])
                     case Some(q) => PriceReply(q)
                     case None => NotFoundReply(symbol)
  {
    var cleanInput := CleanTicker(symbol);
    lookedUp := [cleanInput];
    var quote := lookup(cleanInput);
    searched := false;
    if quote.None? {
      searched := true;
      var foundSymbol := search(cleanInput);
      if foundSymbol.Some? && foundSymbol.value != [] {
        lookedUp := lookedUp + [foundSymbol.value];
        quote := lookup(foundSymbol.value);
      }
    }
    if quote.Some? {
      reply := PriceReply(quote.value);
    } else {
      reply := NotFoundReply(symbol);
    }
  }

  /** One watchlist row as the portfolio tool reads it. */
  datatype Holding = Holding(symbol: string, amount: int, price: real)

  const MissingUserIdReply: string := "Error: You didn't provide the real User ID UUID."
  const EmptyPortfolioReply: string := "The portfolio is currently empty."
  const PortfolioHeader: string := "Current Portfolio:\n"

  /** A placeholder such as `user_id` instead of a real identifier. */
  predicate IsPlaceholderUserId(userId: string): (placeholder: bool)
    ensures placeholder ==> 7 <= |userId| < 10
  {
    var found := Contains(Lower(userId), "user_id");
    assert found ==> |"user_id"| <= |Lower(userId)|;
    found && |userId| < 10
  }

  /** One summary line; `showPrice` is how Python prints the price. */
  function HoldingLine(h: Holding, showPrice: real -> string): string
  {
    "- " + h.symbol + ": " + IntToString(h.amount) + " shares (Avg Buy Price: $" + showPrice(h.price) + ")\n"
  }

  /** The summary lines of the rows, in row order. */
  function HoldingLines(rows: seq<Holding>, showPrice: real -> string): (lines: string)
    ensures lines == [] <==> rows == []
  {
    if rows == [] then []
    else HoldingLines(rows[..|rows| - 1], showPrice) + HoldingLine(rows[|rows| - 1], showPrice)
  }

  /** Every row has its line in the summary. */
  lemma {:induction false} HoldingLinesListEveryRow(rows: seq<Holding>, showPrice: real -> string, i: nat)
    requires i < |rows|
    ensures Contains(HoldingLines(rows, showPrice), HoldingLine(rows[i], showPrice))
    decreases |rows|
  {
    var init := rows[..|rows| - 1];
    var last := HoldingLine(rows[|rows| - 1], showPrice);
    assert HoldingLines(rows, showPrice) == HoldingLines(init, showPrice) + last;
    if i == |rows| - 1 {
      ContainsInMiddle(HoldingLines(init, showPrice), last, []);
      assert HoldingLines(init, showPrice) + last + [] == HoldingLines(rows, showPrice);
    } else {
      HoldingLinesListEveryRow(init, showPrice, i);
      assert init[i] == rows[i];
      ContainsExtended(HoldingLines(init, showPrice), HoldingLine(rows[i], showPrice), last);
    }
  }

  lemma HoldingLinesSnoc(rows: seq<Holding>, showPrice: real -> string, i: nat)
    requires i < |rows|
    ensures HoldingLines(rows[..i + 1], showPrice)
         == HoldingLines(rows[..i], showPrice) + HoldingLine(rows[i], showPrice)
  {
    var prefix := rows[..i + 1];
    assert prefix[..i] == rows[..i] && prefix[i] == rows[i];
  }

  lemma AppendAssociates(a: string, b: string, c: string)
    ensures (a + b) + c == a + (b + c)
  {
  }

  /** The summary loop: `start` (the header), then one line per row appended in row order. */
  method AppendHoldingLines(start: string, rows: seq<Holding>, showPrice: real -> string) returns (summary: string)
    ensures summary == start + HoldingLines(rows, showPrice)
  {
    summary := start;
    var i := 0;
    while i < |rows|
      invariant 0 <= i <= |rows|
      invariant summary == start + HoldingLines(rows[..i], showPrice)
    {
      HoldingLinesSnoc(rows, showPrice, i);
      AppendAssociates(start, HoldingLines(rows[..i], showPrice), HoldingLine(rows[i], showPrice));
      summary := summary + HoldingLine(rows[i], showPrice);
      i := i + 1;
    }
    assert rows[..i] == rows;
  }

  /** A watchlist row as the portfolio tool reads it: the key's symbol, the quantity and the average cost. */
  function HoldingOf(key: Ledger.Key, row: Ledger.Position): (h: Holding)
    ensures h.symbol == key.symbol && h.amount == row.amount && h.price == row.price
  {
    Holding(key.symbol, row.amount, row.price)
  }

  /**
   * `rows` is what the watchlist query returns for the selection `selected`,
   * in whatever order the database gives: one row per selected key, every
   * row the holding of a selected key, and every selected key listed.
   */
  predicate ListsRows(rows: seq<Holding>, selected: map<Ledger.Key, Ledger.Position>)
  {
    && |rows| == |selected|
    && (forall i :: 0 <= i < |rows| ==> exists k :: k in selected && rows[i] == HoldingOf(k, selected[k]))
    && (forall k :: k in selected ==> HoldingOf(k, selected[k]) in rows)
  }

  /**
   * The portfolio tool over the watchlist table. `listed` is what
   * `get_watchlist(userId)` returns: the rows `Ledger.RowsOf` selects.
   * Returns the reply and whether the query was made.
   */
  method CheckMyPortfolio(userId: string, watchlist: map<Ledger.Key, Ledger.Position>, listed: seq<Holding>,
                          showPrice: real -> string)
    returns (reply: string, queried: bool)
    requires ListsRows(listed, Ledger.RowsOf(watchlist, userId))
    ensures queried <==> !IsPlaceholderUserId(userId)
    ensures !queried ==> reply == MissingUserIdReply
    ensures queried && Ledger.RowsOf(watchlist, userId) == map[] ==> reply == EmptyPortfolioReply
    ensures queried && Ledger.RowsOf(watchlist, userId) != map[] ==>
      reply == PortfolioHeader + HoldingLines(listed, showPrice)
  {
    if IsPlaceholderUserId(userId) {
      return MissingUserIdReply, false;
    }
    queried := true;
    if listed == [] {
      assert |Ledger.RowsOf(watchlist, userId)| == 0;
      return EmptyPortfolioReply, queried;
    }
    reply := AppendHoldingLines(PortfolioHeader, listed, showPrice);
  }

  /** Every row the query selects has its line in the summary. */
  lemma PortfolioListsEveryRow(userId: string, watchlist: map<Ledger.Key, Ledger.Position>, listed: seq<Holding>,
                               showPrice: real -> string, key: Ledger.Key)
    requires ListsRows(listed, Ledger.RowsOf(watchlist, userId))
    requires key in Ledger.RowsOf(watchlist, userId)
    ensures Contains(HoldingLines(listed, showPrice), HoldingLine(HoldingOf(key, watchlist[key]), showPrice))
  {
    var selected := Ledger.RowsOf(watchlist, userId);
    assert selected[key] == watchlist[key];
    var i :| 0 <= i < |listed| && listed[i] == HoldingOf(key, selected[key]);
    HoldingLinesListEveryRow(listed, showPrice, i);
  }

  /**
   * An empty user id passes the placeholder guard, and the query then drops
   * its user filter: the summary lists every user's rows.
   */
  lemma EmptyIdListsEveryUser(watchlist: map<Ledger.Key, Ledger.Position>, listed: seq<Holding>,
                              showPrice: real -> string, key: Ledger.Key)
    requires ListsRows(listed, Ledger.RowsOf(watchlist, ""))
    requires key in watchlist
    ensures !IsPlaceholderUserId("")
    ensures Contains(HoldingLines(listed, showPrice), HoldingLine(HoldingOf(key, watchlist[key]), showPrice))
  {
    assert Lower("") == "";
    assert IndexOf("", "user_id") == None;
    PortfolioListsEveryRow("", watchlist, listed, showPrice, key);
  }
}
