/**
 * The trade form (client/modules/trade/view/trade_view.py): a quantity
 * spin box whose range depends on the mode, a live total, a combo box of
 * saved cards that fills the card fields, and the ordered checks run before
 * the form emits its trade data. Widgets become fields: the spin box is its
 * value and range, the total label the amount it shows, each line edit its
 * text.
 */
module TradeUi {
  import opened Wrappers
  import opened Strings
  import opened TradeModel

  const HolderRequired: string := "Card Holder Name is required."
  const CardNumberLength: string := "Card number must be 16 digits."
  const InvalidMonth: string := "Invalid Month (01-12)."
  const InvalidDate: string := "Invalid Date."
  const NewCardItem: string := "Enter New Card"

  /** The quantity range in buy mode. */
  const BuyMaximum: int := 100000
  /** The line edits' `maxLength`: `setText` cuts longer text at the limit. */
  const CardNumberMaxLength: nat := 16
  const CvvMaxLength: nat := 3

  /** The dictionary the form emits with `on_trade_clicked`. */
  datatype TradeData = TradeData(
    symbol: string, price: real, currentPrice: real, amount: int,
    cardHolder: string, cardNumber: string, expiration: string, cvv: string,
    saveCard: bool, buyPrice: real, eventId: Option<int>)

  /** What pressing the action button does: a warning box, or the emitted trade. */
  datatype Outcome = Warning(message: string) | Emitted(data: TradeData)

  /** The four card line edits. */
  datatype CardFields = CardFields(holder: string, number: string, expiration: string, cvv: string)

  /** A `QSpinBox` value: the nearest integer to `v` within `[lo, hi]`. */
  function Clamp(v: int, lo: int, hi: int): (r: int)
    requires lo <= hi
    ensures lo <= r <= hi
    ensures lo <= v <= hi ==> r == v
    ensures v < lo ==> r == lo
    ensures v > hi ==> r == hi
  {
    if v < lo then lo else if v > hi then hi else v
  }

  /** Python's `int(x)` on a real: truncation toward zero. */
  function Truncate(x: real): (n: int)
    ensures x >= 0.0 ==> n as real <= x < n as real + 1.0
    ensures x < 0.0 ==> n as real - 1.0 < x <= n as real
  {
    if x >= 0.0 then x.Floor else -((-x).Floor)
  }

  /** `QLineEdit.setText` on a line edit with a maximum length. */
  function Limit(s: string, n: nat): (r: string)
    ensures |r| <= n && |r| <= |s|
    ensures r == s[..|r|]
    ensures |s| <= n ==> r == s
  {
    if |s| <= n then s else s[..n]
  }

  /** The combo entry for a saved card: its last four digits, `????` when it has no number. */
  function CardLabel(card: Record): string
  {
    MaskedNumber(Get(card, "card_number", "????"))
  }

  /** A card number shown as `**** ` and its last four characters. */
  function MaskedNumber(number: string): string
  {
    "**** " + TakeLast(number, 4)
  }

  /** The card fields a saved card fills in; missing keys read as `""`. */
  function FieldsOf(card: Record): CardFields
  {
    CardFields(Get(card, "card_holder", ""), Limit(Get(card, "card_number", ""), CardNumberMaxLength),
               Get(card, "expiration", ""), Limit(Get(card, "cvv", ""), CvvMaxLength))
  }

  /** Python's `data[k]` on a list of `n` items: the position read, None for `IndexError`. */
  function PyIndex(k: int, n: nat): (p: Option<nat>)
    ensures p.Some? <==> -(n as int) <= k < n
    ensures p.Some? ==> p.value < n && p.value % n == k % n
  {
    if 0 <= k < n then Some(k) else if -(n as int) <= k < 0 then Some(n + k) else None
  }

  /** The month of an `MM/YY` text: `int(exp.split("/")[0])`, None when that raises. */
  function ExpiryMonth(expiration: string): Option<int>
  {
    ParseInt(Split(expiration, "/")[0])
  }

  predicate MonthValid(expiration: string)
  {
    var month := ExpiryMonth(expiration);
    month.Some? && 1 <= month.value <= 12
  }

  /** `12/25` reads month 12. */
  lemma ExpiryMonthOfDate()
    ensures ExpiryMonth("12/25") == Some(12)
  {
    SplitAtFirst("12", "/", "25");
    assert Split("12/25", "/")[0] == "12" by {
      assert "12/25" == "12" + "/" + "25";
    }
    TwelveParses();
  }

  /** An empty date has no month. */
  lemma ExpiryMonthOfEmpty()
    ensures ExpiryMonth("") == None
  {
    SplitWithout("", "/");
  }

  /** `int("12")` is 12. */
  lemma TwelveParses()
    ensures ParseInt("12") == Some(12)
  {
    ParseIntOfIntToString(12);
    assert NatToString(1) == "1";
    assert IntToString(12) == "12";
  }


  /** The form's contents that `handle_action` reads. */
  datatype Form = Form(
    symbol: string, unitPrice: real, quantity: int, fields: CardFields,
    saveCard: bool, buyPrice: real, eventId: Option<int>)

  /**
   * `handle_action` on a form: warn at the first failing check, in the
   * order holder name, card number length, expiry month; otherwise emit the
   * form's data, priced at the unit price.
   */
  function Submit(form: Form): (outcome: Outcome)
    ensures var f := form.fields;
      outcome.Emitted? <==> Strip(f.holder) != [] && |f.number| == 16 && MonthValid(f.expiration)
    ensures Strip(form.fields.holder) == [] ==> outcome == Warning(HolderRequired)
    ensures Strip(form.fields.holder) != [] && |form.fields.number| != 16 ==> outcome == Warning(CardNumberLength)
    ensures Strip(form.fields.holder) != [] && |form.fields.number| == 16 ==>
      (ExpiryMonth(form.fields.expiration).None? ==> outcome == Warning(InvalidDate))
      && (ExpiryMonth(form.fields.expiration).Some? && !MonthValid(form.fields.expiration) ==>
            outcome == Warning(InvalidMonth))
    ensures outcome.Emitted? ==>
      && outcome.data.price == form.unitPrice && outcome.data.currentPrice == form.unitPrice
      && outcome.data.amount == form.quantity && outcome.data.symbol == form.symbol
      && CardFields(outcome.data.cardHolder, outcome.data.cardNumber,
                    outcome.data.expiration, outcome.data.cvv) == form.fields
      && outcome.data.saveCard == form.saveCard
      && outcome.data.buyPrice == form.buyPrice && outcome.data.eventId == form.eventId
  {
    var f := form.fields;
    if Strip(f.holder) == [] then Warning(HolderRequired)
    else if |f.number| != 16 then Warning(CardNumberLength)
    else
      match ExpiryMonth(f.expiration)
      case None => Warning(InvalidDate)
      case Some(month) =>
        if month < 1 || month > 12 then Warning(InvalidMonth)
        else Emitted(TradeData(form.symbol, form.unitPrice, form.unitPrice, form.quantity,
                               f.holder, f.number, f.expiration, f.cvv,
                               form.saveCard, form.buyPrice, form.eventId))
  }

  /** The emitted trade is the form's quantity at the form's unit price. */
  lemma EmittedFromForm(form: Form, data: TradeData)
    requires Submit(form) == Emitted(data)
    ensures data.amount == form.quantity && data.price == form.unitPrice
  {
  }

  /** One combo label per saved card, in order. */
  function Labels(cards: seq<Record>): (labels: seq<string>)
    ensures |labels| == |cards|
  {
    if cards == [] then [] else Labels(cards[..|cards| - 1]) + [CardLabel(cards[|cards| - 1])]
  }

  /** Entry k of the labels is the label of card k. */
  lemma {:induction false} LabelsAt(cards: seq<Record>, k: int)
    requires 0 <= k < |cards|
    ensures Labels(cards)[k] == CardLabel(cards[k])
  {
    var init := cards[..|cards| - 1];
    if k < |cards| - 1 {
      LabelsAt(init, k);
      assert init[k] == cards[k];
    }
  }

  /** The combo's entries: "Enter New Card", then one label per saved card, in order. */
  method ComboItems(cards: seq<Record>) returns (items: seq<string>)
    ensures items == [NewCardItem] + Labels(cards)
  {
    items := [NewCardItem];
    var i := 0;
    while i < |cards|
      invariant 0 <= i <= |cards|
      invariant items == [NewCardItem] + Labels(cards[..i])
    {
      assert cards[..i + 1][..i] == cards[..i];
      items := items + [CardLabel(cards[i])];
      i := i + 1;
    }
    assert cards[..i] == cards;
  }

  class TradeView {
    var tradeMode: string
    var currentUnitPrice: real
    var buyPrice: real
    var eventId: Option<int>
    var savedCardsData: seq<Record>
    /** The symbol label's text. */
    var symbolText: string
    /** The amount spin box: its value and its range. */
    var quantity: int
    var minimum: int
    var maximum: int
    /** The amount the total label shows. */
    var total: real
    /** The saved-cards combo box: its entries and its current index. */
    var comboItems: seq<string>
    var comboIndex: int
    var cardHolder: string
    var cardNumber: string
    var expiration: string
    var cvv: string
    /** The "Save card for future" check box. */
    var saveCard: bool

    /** The spin box's range starts at 1 and holds the quantity. */
    ghost predicate SpinInRange()
      reads this`minimum, this`maximum, this`quantity
    {
      minimum == 1 && minimum <= quantity <= maximum
    }

    /** The total label shows the quantity at the unit price. */
    ghost predicate TotalShown()
      reads this`total, this`quantity, this`currentUnitPrice
    {
      total == quantity as real * currentUnitPrice
    }

    /** The card number and CVV line edits hold no more than their maximum lengths. */
    ghost predicate FieldsFit()
      reads this`cardNumber, this`cvv
    {
      |cardNumber| <= CardNumberMaxLength && |cvv| <= CvvMaxLength
    }

    /** The combo has one entry per saved card plus "Enter New Card". */
    ghost predicate ComboMatchesCards()
      reads this`comboItems, this`savedCardsData
    {
      |comboItems| == |savedCardsData| + 1
    }

    /**
     * The form's invariant: the quantity never leaves a range that starts
     * at 1, the length limits hold, and the combo has one entry per saved
     * card plus the first. That the label shows quantity times unit price
     * is `TotalShown`, kept by every handler that can change one of the three.
     */
    ghost predicate Valid()
      reads this`minimum, this`maximum, this`quantity
      reads this`cardNumber, this`cvv, this`comboItems, this`savedCardsData
    {
      SpinInRange() && FieldsFit() && ComboMatchesCards()
    }

    function Fields(): CardFields
      reads this
    {
      CardFields(cardHolder, cardNumber, expiration, cvv)
    }

    /** The form as built: buy mode, quantity 1 of 1..100000, total `$0.00`, no card. */
    constructor ()
      ensures Valid() && TotalShown()
      ensures tradeMode == "buy" && currentUnitPrice == 0.0 && buyPrice == 0.0 && eventId == None
      ensures savedCardsData == [] && symbolText == "SYMBOL"
      ensures quantity == 1 && minimum == 1 && maximum == BuyMaximum && total == 0.0
      ensures comboItems == [NewCardItem] && comboIndex == 0
      ensures Fields() == CardFields("", "", "", "") && !saveCard
    {
      tradeMode := "buy";
      currentUnitPrice := 0.0;
      buyPrice := 0.0;
      eventId := None;
      savedCardsData := [];
      symbolText := "SYMBOL";
      minimum := 1;
      maximum := BuyMaximum;
      quantity := 1;
      total := 0.0;
      comboItems := [NewCardItem];
      comboIndex := 0;
      cardHolder := "";
      cardNumber := "";
      expiration := "";
      cvv := "";
      saveCard := false;
    }

    /** `update_total`: the label shows quantity times the unit price. */
    method UpdateTotal()
      modifies this`total
      ensures total == quantity as real * currentUnitPrice
    {
      total := quantity as real * currentUnitPrice;
    }

    /**
     * `QSpinBox.setValue`: the value is clamped into the range; a change
     * fires `valueChanged`, which is connected to `update_total`.
     */
    method SpinSetValue(v: int)
      requires minimum <= maximum
      modifies this`quantity, this`total
      ensures quantity == Clamp(v, minimum, maximum)
      ensures total == if quantity != old(quantity) then quantity as real * currentUnitPrice else old(total)
    {
      var clamped := Clamp(v, minimum, maximum);
      if clamped != quantity {
        quantity := clamped;
        UpdateTotal();
      }
    }

    /** `QSpinBox.setRange`: a maximum below the minimum becomes the minimum; the value is clamped. */
    method SpinSetRange(lo: int, hi: int)
      modifies this`minimum, this`maximum, this`quantity, this`total
      ensures minimum == lo && maximum == if hi < lo then lo else hi
      ensures quantity == Clamp(old(quantity), minimum, maximum)
      ensures total == if quantity != old(quantity) then quantity as real * currentUnitPrice else old(total)
    {
      minimum := lo;
      maximum := if hi < lo then lo else hi;
      SpinSetValue(quantity);
    }

    /** `_increase_qty`: one more, unless the range's maximum is reached. */
    method IncreaseQty()
      requires Valid() && TotalShown()
      modifies this`quantity, this`total
      ensures Valid() && TotalShown()
      ensures quantity == if old(quantity) < maximum then old(quantity) + 1 else old(quantity)
    {
      SpinSetValue(quantity + 1);
    }

    /** `_decrease_qty`: one less, only from above 1. */
    method DecreaseQty()
      requires Valid() && TotalShown()
      modifies this`quantity, this`total
      ensures Valid() && TotalShown()
      ensures quantity == if old(quantity) > 1 then old(quantity) - 1 else old(quantity)
      ensures quantity >= 1
    {
      var value := quantity;
      if value > 1 {
        SpinSetValue(value - 1);
      }
    }

    /** `set_mode`: records the mode; buy mode resets the range to 1..100000. */
    method SetMode(mode: string)
      requires Valid() && TotalShown()
      modifies this`tradeMode, this`minimum, this`maximum, this`quantity, this`total
      ensures Valid() && TotalShown()
      ensures tradeMode == mode
      ensures mode == "buy" ==> maximum == BuyMaximum && quantity == Clamp(old(quantity), 1, BuyMaximum)
      ensures mode != "buy" ==> maximum == old(maximum) && quantity == old(quantity)
    {
      tradeMode := mode;
      if mode == "buy" {
        SpinSetRange(1, BuyMaximum);
      }
    }

    /**
     * `set_stock_data`: records the stock; in sell mode the range becomes
     * 1..int(available) (just 1 when that is below 1) and the quantity 1;
     * the total is then recomputed with the new price.
     */
    method SetStockData(symbol: string, currentPrice: real, available: real, buyPrice: real, eventId: Option<int>)
      requires Valid()
      modifies this`symbolText, this`currentUnitPrice, this`buyPrice, this`eventId
      modifies this`minimum, this`maximum, this`quantity, this`total
      ensures Valid() && TotalShown()
      ensures symbolText == symbol && currentUnitPrice == currentPrice
      ensures this.buyPrice == buyPrice && this.eventId == eventId
      ensures tradeMode == "sell" ==>
        maximum == (if Truncate(available) < 1 then 1 else Truncate(available)) && quantity == 1
      ensures tradeMode != "sell" ==> maximum == old(maximum) && quantity == old(quantity)
      ensures total == quantity as real * currentPrice
    {
      symbolText := symbol;
      currentUnitPrice := currentPrice;
      this.buyPrice := buyPrice;
      this.eventId := eventId;
      if tradeMode == "sell" {
        SellRange(available);
      }
      UpdateTotal();
    }

    /**
     * The sell-mode part of `set_stock_data`: the range becomes
     * 1..int(available), or just 1, and the quantity 1. The total it leaves
     * is recomputed by the caller.
     */
    method SellRange(available: real)
      requires SpinInRange()
      modifies this`minimum, this`maximum, this`quantity, this`total
      ensures SpinInRange() && quantity == 1
      ensures maximum == if Truncate(available) < 1 then 1 else Truncate(available)
    {
      SpinSetRange(1, Truncate(available));
      SpinSetValue(1);
    }

    /**
     * `on_card_selected`: entry 0 clears the card fields; entry k loads
     * saved card k - 1 when k - 1 is below the number of cards (a negative
     * k - 1 indexes from the end, as in Python); otherwise, or when that
     * index raises, the fields stay as they were.
     */
    method OnCardSelected(index: int)
      requires Valid()
      modifies this`cardHolder, this`cardNumber, this`expiration, this`cvv
      ensures Valid()
      ensures index == 0 ==> Fields() == CardFields("", "", "", "")
      ensures index != 0 && index - 1 < |savedCardsData| && PyIndex(index - 1, |savedCardsData|).Some? ==>
        Fields() == FieldsOf(savedCardsData[PyIndex(index - 1, |savedCardsData|).value])
      ensures index != 0 && (index - 1 >= |savedCardsData| || PyIndex(index - 1, |savedCardsData|).None?) ==>
        Fields() == old(Fields())
    {
      if index == 0 {
        cardHolder := "";
        cardNumber := "";
        expiration := "";
        cvv := "";
      } else if index - 1 < |savedCardsData| {
        var position := PyIndex(index - 1, |savedCardsData|);
        if position.Some? {
          var card := savedCardsData[position.value];
          var fields := FieldsOf(card);
          cardHolder := fields.holder;
          cardNumber := fields.number;
          expiration := fields.expiration;
          cvv := fields.cvv;
        }
      }
    }

    /**
     * `setCurrentIndex(1)` on the combo: its `currentIndexChanged` runs
     * `on_card_selected(1)`, and `load_saved_cards` then calls it once more.
     */
    method SelectFirstCard()
      requires Valid() && savedCardsData != []
      modifies this`comboIndex, this`cardHolder, this`cardNumber, this`expiration, this`cvv
      ensures Valid()
      ensures comboIndex == 1 && Fields() == FieldsOf(savedCardsData[0])
    {
      comboIndex := 1;
      assert PyIndex(0, |savedCardsData|) == Some(0);
      OnCardSelected(1);
      OnCardSelected(1);
    }

    /**
     * The first half of `load_saved_cards`: the cards are stored and the
     * combo is rebuilt with "Enter New Card" and one entry per card, with
     * entry 0 current (signals are blocked, so no handler runs).
     */
    method RebuildCombo(cards: seq<Record>)
      requires Valid()
      modifies this`savedCardsData, this`comboItems, this`comboIndex
      ensures Valid()
      ensures savedCardsData == cards && comboIndex == 0
      ensures comboItems == [NewCardItem] + Labels(cards)
    {
      var items := ComboItems(cards);
      savedCardsData := cards;
      comboItems := items;
      comboIndex := 0;
    }

    /**
     * `load_saved_cards`: the combo is rebuilt; with at least one card,
     * entry 1 is selected and the fields show the first card. With no card
     * the fields are left as they were.
     */
    method LoadSavedCards(cards: seq<Record>)
      requires Valid()
      modifies this`savedCardsData, this`comboItems, this`comboIndex
      modifies this`cardHolder, this`cardNumber, this`expiration, this`cvv
      ensures Valid()
      ensures savedCardsData == cards
      ensures comboItems == [NewCardItem] + Labels(cards)
      ensures cards == [] ==> comboIndex == 0 && Fields() == old(Fields())
      ensures cards != [] ==> comboIndex == 1 && Fields() == FieldsOf(cards[0])
    {
      RebuildCombo(cards);
      if |comboItems| > 1 {
        SelectFirstCard();
      }
    }

    /** What the form holds when the action button is pressed. */
    function CurrentForm(): Form
      reads this
    {
      Form(symbolText, currentUnitPrice, quantity, Fields(), saveCard, buyPrice, eventId)
    }

    /** `handle_action`: the checks of `Submit` on the form as it stands. */
    function HandleAction(): (outcome: Outcome)
      reads this
      ensures outcome.Emitted? <==> Strip(cardHolder) != [] && |cardNumber| == 16 && MonthValid(expiration)
      ensures outcome.Emitted? ==>
        outcome.data.symbol == symbolText && outcome.data.amount == quantity && outcome.data.price == currentUnitPrice
    {
      Submit(CurrentForm())
    }

    /** The emitted trade carries the view's quantity and unit price. */
    lemma EmittedMatchesView(data: TradeData)
      requires Valid() && HandleAction() == Emitted(data)
      ensures data.amount == quantity && data.price == currentUnitPrice
    {
      EmittedFromForm(CurrentForm(), data);
    }

    /** A trade at the view's quantity and unit price costs the displayed total. */
    lemma ViewTradeCostsTotal(data: TradeData)
      requires Valid() && TotalShown() && data.amount == quantity && data.price == currentUnitPrice
      ensures 1 <= data.amount <= maximum
      ensures data.amount as real * data.price == total
    {
    }

    /**
     * What the buy button emits is a quantity within the spin box's range
     * whose cost at the unit price is the total the view displays.
     */
    lemma EmittedTradeMatchesTotal(data: TradeData)
      requires Valid() && TotalShown() && HandleAction() == Emitted(data)
      ensures 1 <= data.amount <= maximum
      ensures data.amount as real * data.price == total
    {
      EmittedMatchesView(data);
      ViewTradeCostsTotal(data);
    }
  }
}
