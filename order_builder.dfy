/** The order builder: one broker order record and one queue record, built
    once and then overwritten field by field for every signal. Fields that a
    call does not write keep what an earlier call left in them. */
module OrderBuilding {
  import opened Wrappers
  import opened Records
  import opened Numeric

  /** `OptionSymbol(symbol, exp_date, option_type[0], strike).build()`, a
      formatter from a library outside this model. */
  type Formatter = (string, Timestamp, char, string) -> string

  /** The quote of the formatted option symbol. */
  datatype Quote = Quote(ask: real, bid: real)

  /** The open position's fields that a closing signal carries once merged
      with it. */
  datatype Holding = Holding(qty: int, entryPrice: real, entryDate: Timestamp, positionSize: int)

  /** The `trade_data` dict handed to the builder. */
  datatype TradeData = TradeData(
    symbol: string,
    strategy: string,
    side: Side,
    preSymbol: Option<string>,
    expDate: Option<Timestamp>,
    optionType: Option<string>,
    holding: Option<Holding>)

  datatype Duration = GoodTillCancel | Day

  /** orderStrategyType of the top-level order. */
  datatype StrategyType = Single | Trigger

  /** The single entry of orderLegCollection. `putCall` is None until an
      option order first writes it. */
  datatype Leg = Leg(
    instruction: Option<Side>,
    quantity: Option<int>,
    symbol: Option<string>,
    assetType: Option<string>,
    putCall: Option<string>)

  /** One side of the OCO bracket: a LIMIT take-profit or a STOP stop-loss. */
  datatype BracketLeg = BracketLeg(price: real, instruction: Side, quantity: int, assetType: string, symbol: string)

  /** childOrderStrategies: one OCO group holding the two exits. */
  datatype Bracket = Bracket(takeProfit: BracketLeg, stopLoss: BracketLeg)

  /** `self.order`, a LIMIT order. */
  datatype Order = Order(
    price: Option<real>,
    session: Option<string>,
    duration: Option<Duration>,
    strategyType: StrategyType,
    leg: Leg,
    bracket: Option<Bracket>)

  /** `self.obj`, the record that is queued once the order is placed. The
      Trader and account_id entries are fixed at construction and kept by the
      engine instead. */
  datatype Draft = Draft(
    symbol: Option<string>,
    strategy: Option<string>,
    side: Option<Side>,
    assetType: Option<string>,
    positionType: Option<PositionType>,
    orderType: Option<OrderType>,
    direction: Option<Direction>,
    option: Option<OptionInfo>,
    qty: Option<int>,
    positionSize: Option<int>,
    entry: Option<Stamp>,
    exit: Option<Stamp>,
    orderId: Option<int>,
    status: Option<string>,
    mode: Option<AccountMode>)

  datatype BuilderState = BuilderState(order: Order, obj: Draft)

  /** How a build ends: both records returned, `(None, None)` returned, or an
      exception raised. */
  datatype BuildOutcome = Built | Declined | Raised

  datatype Build = Build(state: BuilderState, outcome: BuildOutcome)

  const InitialOrder := Order(None, None, None, Single, Leg(None, None, None, None, None), None)

  const InitialDraft := Draft(None, None, None, None, None, None, None, None, None, None, None, None, None, None, None)

  /** The queue record holds everything a queue entry needs. */
  predicate Complete(obj: Draft)
  {
    obj.symbol.Some? && obj.strategy.Some? && obj.side.Some? && obj.assetType.Some?
    && obj.positionType.Some? && obj.orderType.Some? && obj.direction.Some?
    && obj.qty.Some? && obj.positionSize.Some? && obj.entry.Some?
  }

  /** The record names the signal's symbol, strategy and side, and the
      direction and order type it was built for. */
  predicate Describes(obj: Draft, td: TradeData, strat: StrategyDoc, dir: Direction)
  {
    obj.symbol == Some(td.symbol) && obj.strategy == Some(td.strategy) && obj.side == Some(td.side)
    && obj.direction == Some(dir) && obj.orderType == Some(strat.orderType)
  }

  /** Sides that pay the ask. */
  predicate IsBuySide(side: Side)
  {
    side == Buy || side == BuyToOpen || side == BuyToClose
  }

  /** The quote price of a standard order: the ask when buying, else the bid. */
  function QuotedPrice(side: Side, q: Quote): real
  {
    if IsBuySide(side) then q.ask else q.bid
  }

  /** The price a build works with; an OCO build always takes the bid. */
  function BuildPrice(side: Side, q: Quote, oco: bool): (p: real)
    ensures oco ==> p == q.bid
    ensures !oco && IsBuySide(side) ==> p == q.ask
    ensures !oco && !IsBuySide(side) ==> p == q.bid
  {
    if oco then q.bid else QuotedPrice(side, q)
  }

  /** "OPTION" exactly when the trade data has a Pre_Symbol. */
  function AssetTypeOf(preSymbol: Option<string>): (a: string)
    ensures a == "OPTION" <==> preSymbol.Some?
    ensures a == "EQUITY" <==> preSymbol.None?
  {
    if preSymbol.Some? then "OPTION" else "EQUITY"
  }

  /** Equity orders stay until canceled; option orders last the day. */
  function DurationFor(assetType: string): (d: Duration)
    ensures d == GoodTillCancel <==> assetType == "EQUITY"
  {
    if assetType == "EQUITY" then GoodTillCancel else Day
  }

  /** The instrument symbol: the plain symbol for equity, else the formatted
      option symbol. */
  function LegSymbol(assetType: string, symbol: string, formatted: string): string
  {
    if assetType == "EQUITY" then symbol else formatted
  }

  /** Python's `s[start:]`, where a negative start counts from the end and is
      clipped at zero. */
  function PySliceFrom(s: string, start: int): (r: string)
    ensures 0 <= start <= |s| ==> r == s[start..]
    ensures start < 0 && start + |s| >= 0 ==> r == s[start + |s|..]
    ensures start + |s| < 0 ==> r == s
  {
    if start >= 0 then (if start <= |s| then s[start..] else [])
    else if start + |s| >= 0 then s[start + |s|..]
    else s
  }

  /** The strike as the source slices it: the last three characters, and
      for a shorter Pre_Symbol whatever the negative start leaves. */
  lemma StrikeSlice(pre: string)
    ensures |pre| >= 3 ==> PySliceFrom(pre, |pre| - 3) == pre[|pre| - 3..] && |PySliceFrom(pre, |pre| - 3)| == 3
    ensures |pre| == 2 ==> PySliceFrom(pre, |pre| - 3) == pre[1..]
    ensures |pre| < 2 ==> PySliceFrom(pre, |pre| - 3) == pre
  {
  }

  /** The budget a strategy's Position_Size buys: dollars for equity, and
      contracts of 100 for options. */
  function Budget(assetType: string, size: int): real
  {
    if assetType == "EQUITY" then size as real else size as real / 100.0
  }

  /** The quantity of an opening order: the whole number of units the budget
      affords at the unrounded price, truncated toward zero. */
  function OpenQuantity(assetType: string, size: int, price: real): (n: int)
    requires price != 0.0
    ensures price > 0.0 && size >= 0 ==>
      n >= 0 && n as real * price <= Budget(assetType, size) < (n + 1) as real * price
  {
    var q := Budget(assetType, size) / price;
    var n := Trunc(q);
    if price > 0.0 && size >= 0 then
      UnitsBetween(Budget(assetType, size), price, n);
      n
    else n
  }

  lemma UnitsBetween(budget: real, price: real, n: int)
    requires price > 0.0 && budget >= 0.0
    requires n as real <= budget / price < n as real + 1.0
    ensures n as real * price <= budget < (n + 1) as real * price
  {
    var q := budget / price;
    assert q * price == budget;
    var m := (n + 1) as real;
    assert m == n as real + 1.0;
    MulLess(q, m, price);
    assert budget < m * price;
    MulAtMost(n as real, q, price);
  }

  lemma MulLess(a: real, b: real, p: real)
    requires a < b && p > 0.0
    ensures a * p < b * p
  {
  }

  lemma MulAtMost(a: real, b: real, p: real)
    requires a <= b && p > 0.0
    ensures a * p <= b * p
  {
  }

  /** The exit instruction of an OCO bracket. Only the four opening sides
      have one, and it trades the other way: an option opening side exits
      with the opposite `*_TO_CLOSE` side, an equity side with the opposite
      equity side. */
  function InverseInstruction(side: Side): (r: Option<Side>)
    ensures r.Some? <==> side in {BuyToOpen, Buy, Sell, SellToOpen}
    ensures r.Some? ==> IsBuySide(side) != IsBuySide(r.value)
    ensures r.Some? ==> (side in {BuyToOpen, SellToOpen} <==> r.value in {BuyToClose, SellToClose})
    ensures r.Some? ==> (side in {Buy, Sell} <==> r.value in {Buy, Sell})
  {
    match side
    case BuyToOpen => Some(SellToClose)
    case Buy => Some(Sell)
    case Sell => Some(Buy)
    case SellToOpen => Some(BuyToClose)
    case _ => None
  }

  /** Whether the option fields the builder reads unconditionally are there. */
  predicate HasOptionFields(td: TradeData)
  {
    td.preSymbol.Some? && td.expDate.Some? && td.optionType.Some? && |td.optionType.value| > 0
  }

  /** The formatted option symbol. */
  function Formatted(td: TradeData, format: Formatter): string
    requires HasOptionFields(td)
  {
    var pre := td.preSymbol.value;
    format(td.symbol, td.expDate.value, td.optionType.value[0], PySliceFrom(pre, |pre| - 3))
  }

  /** The writes a build makes before it asks for a quote. */
  function Describe(s: BuilderState, td: TradeData, strat: StrategyDoc, dir: Direction, format: Formatter): BuilderState
    requires HasOptionFields(td)
  {
    var formatted := Formatted(td, format);
    var asset := AssetTypeOf(td.preSymbol);
    var leg := s.order.leg.(instruction := Some(td.side), symbol := Some(LegSymbol(asset, td.symbol, formatted)),
                            assetType := Some(asset), putCall := Some(td.optionType.value));
    var order := s.order.(session := Some("NORMAL"), duration := Some(DurationFor(asset)), leg := leg);
    var obj := s.obj.(symbol := Some(td.symbol), strategy := Some(td.strategy), side := Some(td.side),
                      assetType := Some(asset), positionType := Some(strat.positionType),
                      orderType := Some(strat.orderType), direction := Some(dir),
                      option := Some(OptionInfo(formatted, td.expDate.value, td.optionType.value)));
    BuilderState(order, obj)
  }

  /** `standardOrder`: the state the two records are left in, and how the
      call ends. */
  function StandardSpec(s: BuilderState, td: TradeData, strat: StrategyDoc, dir: Direction, oco: bool,
                        quote: Option<Quote>, now: Timestamp, format: Formatter): (b: Build)
    ensures b.outcome == Built ==> Complete(b.state.obj) && b.state.order.price.Some?
                                   && b.state.order.leg.quantity == b.state.obj.qty
    ensures b.outcome == Built ==> Describes(b.state.obj, td, strat, dir)
    ensures !HasOptionFields(td) ==> b == Build(s, Raised)
    ensures HasOptionFields(td) && quote.Some? ==>
              b.state.order.price == Some(Round(BuildPrice(td.side, quote.value, oco), Two))
    ensures b.state.order.strategyType == s.order.strategyType && b.state.order.bracket == s.order.bracket
    ensures b.state.obj.orderId == s.obj.orderId && b.state.obj.status == s.obj.status && b.state.obj.mode == s.obj.mode
  {
    if !HasOptionFields(td) then Build(s, Raised)
    else
      var described := Describe(s, td, strat, dir, format);
      if quote.None? then Build(described, Raised)
      else
        var price := BuildPrice(td.side, quote.value, oco);
        var priced := described.(order := described.order.(price := Some(Round(price, Two))));
        match dir
        case OpenPosition =>
          if price == 0.0 then Build(priced, Raised)
          else
            var size := strat.positionSize;
            var shares := OpenQuantity(AssetTypeOf(td.preSymbol), size, price);
            if strat.active && shares > 0 then
              var order := priced.order.(leg := priced.order.leg.(quantity := Some(shares)));
              var obj := priced.obj.(qty := Some(shares), positionSize := Some(size), entry := Some(Stamp(price, now)));
              Build(BuilderState(order, obj), Built)
            else Build(priced, Declined)
        case ClosePosition =>
          if td.holding.None? then Build(priced, Raised)
          else
            var h := td.holding.value;
            var order := priced.order.(leg := priced.order.leg.(quantity := Some(h.qty)));
            var obj := priced.obj.(entry := Some(Stamp(h.entryPrice, h.entryDate)), exit := Some(Stamp(price, now)),
                                   qty := Some(h.qty), positionSize := Some(h.positionSize));
            Build(BuilderState(order, obj), Built)
  }

  /** The two exits of an OCO order, at take-profit and stop-loss multiples
      of the order price rounded to cents. */
  function MakeBracket(price: real, qty: int, exit: Side, assetType: string, symbol: string, tp: real, sl: real): (b: Bracket)
    ensures b.takeProfit.instruction == exit && b.stopLoss.instruction == exit
    ensures b.takeProfit.quantity == qty && b.stopLoss.quantity == qty
    ensures b.takeProfit.price == Round(Times(price, tp), Two) && b.stopLoss.price == Round(Times(price, sl), Two)
  {
    Bracket(BracketLeg(Round(Times(price, tp), Two), exit, qty, assetType, symbol),
            BracketLeg(Round(Times(price, sl), Two), exit, qty, assetType, symbol))
  }

  /** `OCOorder`: a standard build at the bid, then the TRIGGER bracket. */
  function OcoSpec(s: BuilderState, td: TradeData, strat: StrategyDoc, dir: Direction, quote: Option<Quote>,
                   now: Timestamp, format: Formatter, tp: real, sl: real): (b: Build)
    ensures b.outcome == Built ==> Complete(b.state.obj) && b.state.order.price.Some?
                                   && b.state.order.strategyType == Trigger && b.state.order.bracket.Some?
    ensures b.outcome == Built ==> InverseInstruction(td.side).Some? && Describes(b.state.obj, td, strat, dir)
    ensures b.outcome == Built && quote.Some? ==> b.state.order.price == Some(Round(quote.value.bid, Two))
    ensures b.outcome == Built ==>
              var p := b.state.order.price.value;
              var bracket := b.state.order.bracket.value;
              && bracket.takeProfit.price == Round(Times(p, tp), Two) && bracket.stopLoss.price == Round(Times(p, sl), Two)
              && bracket.takeProfit.instruction == InverseInstruction(td.side).value
              && bracket.stopLoss.instruction == InverseInstruction(td.side).value
              && bracket.takeProfit.quantity == b.state.obj.qty.value
              && bracket.stopLoss.quantity == b.state.obj.qty.value
    ensures b.state.obj.orderId == s.obj.orderId && b.state.obj.status == s.obj.status && b.state.obj.mode == s.obj.mode
  {
    var standard := StandardSpec(s, td, strat, dir, true, quote, now, format);
    if standard.outcome != Built then Build(standard.state, Raised)
    else
      var st := standard.state;
      var exit := InverseInstruction(td.side);
      var trigger := st.order.(strategyType := Trigger);
      if exit.None? then Build(st.(order := trigger), Raised)
      else
        var asset := AssetTypeOf(td.preSymbol);
        var bracket := MakeBracket(st.order.price.value, st.obj.qty.value, exit.value, asset,
                                   LegSymbol(asset, td.symbol, Formatted(td, format)), tp, sl);
        Build(st.(order := trigger.(bracket := Some(bracket))), Built)
  }

  /** Opening: with a quote and a non-zero price, the build succeeds exactly
      when the strategy is active and the budget affords at least one unit;
      otherwise it returns nothing. A success records the quantity, the
      strategy's size and the unrounded price, and prices the order at that
      price rounded to cents. */
  lemma OpenBuild(s: BuilderState, td: TradeData, strat: StrategyDoc, oco: bool, q: Quote, now: Timestamp, format: Formatter)
    requires HasOptionFields(td)
    requires BuildPrice(td.side, q, oco) != 0.0
    ensures var b := StandardSpec(s, td, strat, OpenPosition, oco, Some(q), now, format);
            var p := BuildPrice(td.side, q, oco);
            var n := OpenQuantity("OPTION", strat.positionSize, p);
            && b.outcome != Raised
            && (b.outcome == Built <==> strat.active && n > 0)
            && b.state.order.price == Some(Round(p, Two))
            && (b.outcome == Built ==>
                  b.state.obj.qty == Some(n) && b.state.order.leg.quantity == Some(n)
                  && b.state.obj.positionSize == Some(strat.positionSize)
                  && b.state.obj.entry == Some(Stamp(p, now)))
  {
  }

  /** Closing: the quantity, entry and size come from the position the signal
      was merged with, and the exit is the unrounded quote price. Without
      those fields the build raises. */
  lemma CloseBuild(s: BuilderState, td: TradeData, strat: StrategyDoc, oco: bool, q: Quote, now: Timestamp, format: Formatter)
    requires HasOptionFields(td)
    ensures var b := StandardSpec(s, td, strat, ClosePosition, oco, Some(q), now, format);
            var p := BuildPrice(td.side, q, oco);
            && (b.outcome == Built <==> td.holding.Some?)
            && b.outcome != Declined
            && (td.holding.Some? ==>
                  var h := td.holding.value;
                  b.state.order.leg.quantity == Some(h.qty) && b.state.obj.qty == Some(h.qty)
                  && b.state.obj.entry == Some(Stamp(h.entryPrice, h.entryDate))
                  && b.state.obj.positionSize == Some(h.positionSize)
                  && b.state.obj.exit == Some(Stamp(p, now)))
  {
  }

  /** Every order that gets as far as a quote is an option order for the
      day, described by the signal and the strategy. */
  lemma DescribedOrder(s: BuilderState, td: TradeData, strat: StrategyDoc, dir: Direction, oco: bool, q: Quote, now: Timestamp, format: Formatter)
    requires HasOptionFields(td)
    ensures var b := StandardSpec(s, td, strat, dir, oco, Some(q), now, format);
            && b.state.order.duration == Some(Day)
            && b.state.order.leg.instruction == Some(td.side)
            && b.state.order.leg.assetType == Some("OPTION")
            && b.state.order.leg.putCall == td.optionType
            && b.state.obj.symbol == Some(td.symbol) && b.state.obj.strategy == Some(td.strategy)
            && b.state.obj.positionType == Some(strat.positionType)
            && b.state.obj.orderType == Some(strat.orderType)
            && b.state.obj.direction == Some(dir)
  {
  }

  /** The bracket outlives its order: a standard build that follows an OCO
      build still carries the TRIGGER type and the earlier bracket. */
  lemma StaleBracket(s: BuilderState, td: TradeData, strat: StrategyDoc, dir: Direction, q: Option<Quote>, now: Timestamp,
                     format: Formatter, tp: real, sl: real, td2: TradeData, strat2: StrategyDoc, dir2: Direction,
                     q2: Option<Quote>, now2: Timestamp)
    requires OcoSpec(s, td, strat, dir, q, now, format, tp, sl).outcome == Built
    ensures var first := OcoSpec(s, td, strat, dir, q, now, format, tp, sl).state;
            var second := StandardSpec(first, td2, strat2, dir2, false, q2, now2, format).state;
            second.order.strategyType == Trigger && second.order.bracket == first.order.bracket
  {
  }

  /** Exit_Price outlives its order too: once a close was built, an opening
      build that follows still has an exit price in its record. */
  lemma StaleExit(s: BuilderState, td: TradeData, strat: StrategyDoc, oco: bool, q: Option<Quote>, now: Timestamp,
                  format: Formatter, td2: TradeData, strat2: StrategyDoc, oco2: bool, q2: Option<Quote>, now2: Timestamp)
    requires StandardSpec(s, td, strat, ClosePosition, oco, q, now, format).outcome == Built
    ensures var first := StandardSpec(s, td, strat, ClosePosition, oco, q, now, format).state;
            var second := StandardSpec(first, td2, strat2, OpenPosition, oco2, q2, now2, format).state;
            second.obj.exit.Some?
  {
  }

  /** The builder object: `self.order` and `self.obj` are its fields. */
  class OrderBuilder {
    var order: Order
    var obj: Draft
    const format: Formatter
    const takeProfit: real
    const stopLoss: real

    function State(): BuilderState
      reads this
    {
      BuilderState(order, obj)
    }

    constructor (format: Formatter, takeProfit: real, stopLoss: real)
      ensures State() == BuilderState(InitialOrder, InitialDraft)
      ensures this.format == format && this.takeProfit == takeProfit && this.stopLoss == stopLoss
    {
      order := InitialOrder;
      obj := InitialDraft;
      this.format := format;
      this.takeProfit := takeProfit;
      this.stopLoss := stopLoss;
    }

    method StandardOrder(td: TradeData, strat: StrategyDoc, dir: Direction, oco: bool, quote: Option<Quote>, now: Timestamp)
      returns (outcome: BuildOutcome)
      modifies this
      ensures Build(State(), outcome) == StandardSpec(old(State()), td, strat, dir, oco, quote, now, format)
    {
      if td.preSymbol.None? || td.expDate.None? || td.optionType.None? || |td.optionType.value| == 0 {
        return Raised;
      }
      var formatted := Formatted(td, format);
      var assetType := AssetTypeOf(td.preSymbol);
      // the broker order
      order := order.(session := Some("NORMAL"));
      order := order.(duration := Some(DurationFor(assetType)));
      order := order.(leg := order.leg.(instruction := Some(td.side)));
      order := order.(leg := order.leg.(symbol := Some(LegSymbol(assetType, td.symbol, formatted))));
      order := order.(leg := order.leg.(assetType := Some(assetType)));
      // the queue record
      obj := obj.(symbol := Some(td.symbol));
      obj := obj.(strategy := Some(td.strategy));
      obj := obj.(side := Some(td.side));
      obj := obj.(assetType := Some(assetType));
      obj := obj.(positionType := Some(strat.positionType));
      obj := obj.(orderType := Some(strat.orderType));
      obj := obj.(direction := Some(dir));
      if assetType == "OPTION" {
        obj := obj.(option := Some(OptionInfo(formatted, td.expDate.value, td.optionType.value)));
        order := order.(leg := order.leg.(putCall := Some(td.optionType.value)));
      }
      if quote.None? {
        return Raised;
      }
      var price := QuotedPrice(td.side, quote.value);
      if oco {
        price := quote.value.bid;
      }
      order := order.(price := Some(Round(price, Two)));
      match dir {
        case OpenPosition =>
          if price == 0.0 {
            return Raised;
          }
          var size := strat.positionSize;
          var shares := OpenQuantity(assetType, size, price);
          if strat.active && shares > 0 {
            order := order.(leg := order.leg.(quantity := Some(shares)));
            obj := obj.(qty := Some(shares));
            obj := obj.(positionSize := Some(size));
            obj := obj.(entry := Some(Stamp(price, now)));
          } else {
            return Declined;
          }
        case ClosePosition =>
          if td.holding.None? {
            return Raised;
          }
          var h := td.holding.value;
          order := order.(leg := order.leg.(quantity := Some(h.qty)));
          obj := obj.(entry := Some(Stamp(h.entryPrice, h.entryDate)));
          obj := obj.(exit := Some(Stamp(price, now)));
          obj := obj.(qty := Some(h.qty));
          obj := obj.(positionSize := Some(h.positionSize));
      }
      return Built;
    }

    method OCOOrder(td: TradeData, strat: StrategyDoc, dir: Direction, quote: Option<Quote>, now: Timestamp)
      returns (outcome: BuildOutcome)
      modifies this
      ensures Build(State(), outcome) == OcoSpec(old(State()), td, strat, dir, quote, now, format, takeProfit, stopLoss)
    {
      var standard := StandardOrder(td, strat, dir, true, quote, now);
      if standard != Built {
        return Raised;
      }
      var assetType := AssetTypeOf(td.preSymbol);
      var exit := InverseInstruction(td.side);
      var formatted := Formatted(td, format);
      order := order.(strategyType := Trigger);
      if exit.None? {
        return Raised;
      }
      var price := order.price.value;
      var symbol := LegSymbol(assetType, td.symbol, formatted);
      order := order.(bracket := Some(MakeBracket(price, obj.qty.value, exit.value, assetType, symbol, takeProfit, stopLoss)));
      return Built;
    }
  }
}
