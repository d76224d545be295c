/**
 * The trading engine (src/bot.py): one position at a time, opened by
 * `execute_buy`, closed by `execute_sell`, its stop ratcheted by
 * `manage_orders`, recovered from the store by `_load_initial_state`.
 *
 * Each operation is a pure step function on `BotState` (the `_state` dict)
 * that also returns the orders sent to the exchange and the calls made on
 * the store; the class `TradingBot` holds the same state in fields and its
 * methods are proved to perform exactly those steps. Ticker values and
 * order outcomes are inputs.
 */
module Bot {
  import opened Wrappers
  import opened Text
  import opened Decimal
  import opened Exchange

  /** `Decimal('0.02')`, the trailing stop of a state with no position. */
  const DefaultTrailing: real := 0.02

  /** Seconds `manage_orders` sleeps: without a position, after a normal pass, after an error. */
  const IdlePause: nat := 15
  const TickPause: nat := 30
  const ErrorPause: nat := 60

  datatype Side = Buy | Sell
  datatype OrderType = Limit(price: real) | Market
  /** An order as handed to the exchange client. */
  datatype Order = Order(symbol: string, side: Side, orderType: OrderType, amount: real)

  /** The calls made on `db_manager`. */
  datatype StoreCall =
    | InsertPosition(symbol: string, entryPrice: real, size: real, trailing: real)
    | CloseOpenPositions(exitPrice: real, balance: real)
    | ClosePool

  /** Why an operation returned `(False, message)`. */
  datatype Failure =
    | NoActivePosition            // "Sin posición activa"
    | ExchangeFailure(text: string)
    | DecimalFailure              // InvalidOperation or DivisionByZero from the decimal context
    | OperandTypeError            // Decimal - float

  /** `(True, order_id)` or `(False, message)`. */
  datatype Reply = Done(orderId: string) | Refused(failure: Failure)

  /** The `_state` dict; `currentStop` and `orderId` are None while their keys are absent. */
  datatype BotState = BotState(
    active: bool,
    symbol: Option<string>,
    entryPrice: real,
    size: real,
    trailingStop: real,
    capital: real,
    currentStop: Option<real>,
    orderId: Option<string>)

  /** Every reachable state: a symbol exactly while active, and no size while inactive. */
  predicate Consistent(s: BotState) {
    (s.active <==> s.symbol.Some?) && (!s.active ==> s.size == 0.0)
  }

  /** One operation's effect: its reply, the new state, the orders sent, the store calls made. */
  datatype Effect = Effect(reply: Reply, state: BotState, orders: seq<Order>, store: seq<StoreCall>)

  // ---------------------------------------------------------------------
  // _load_initial_state
  // ---------------------------------------------------------------------

  /** A row of `positions` with `NULL` columns as None. */
  datatype PositionRow = PositionRow(
    symbol: string,
    entryPrice: Option<real>,
    size: Option<real>,
    trailingStop: Option<real>,
    remainingCapital: Option<real>)

  /** The newest open rows, or the exception `execute_query` raised. */
  datatype QueryResult = Rows(rows: seq<PositionRow>) | QueryFailed

  /** `Decimal(str(v))` succeeds on every column. */
  predicate Readable(row: PositionRow) {
    row.entryPrice.Some? && row.size.Some? && row.trailingStop.Some? && row.remainingCapital.Some?
  }

  function IdleState(initialCapital: real): BotState {
    BotState(false, None, 0.0, 0.0, DefaultTrailing, initialCapital, None, None)
  }

  /** `_load_initial_state`: the open row if one can be read, the idle state otherwise. */
  function LoadInitialState(q: QueryResult, initialCapital: real): (s: BotState)
    ensures Consistent(s)
    ensures s.currentStop.None? && s.orderId.None?
    ensures s.active <==> q.Rows? && |q.rows| > 0 && Readable(q.rows[0])
    ensures s.active ==> (
      && s.symbol == Some(q.rows[0].symbol)
      && s.entryPrice == q.rows[0].entryPrice.value && s.size == q.rows[0].size.value
      && s.trailingStop == q.rows[0].trailingStop.value && s.capital == q.rows[0].remainingCapital.value)
    ensures !s.active ==> s == IdleState(initialCapital)
  {
    if q.Rows? && |q.rows| > 0 && Readable(q.rows[0]) then
      var row := q.rows[0];
      BotState(true, Some(row.symbol), row.entryPrice.value, row.size.value, row.trailingStop.value,
               row.remainingCapital.value, None, None)
    else IdleState(initialCapital)
  }

  // ---------------------------------------------------------------------
  // execute_sell
  // ---------------------------------------------------------------------

  /** The orders a sell sends and the outcome that decides it: limit first, market only after InvalidOrder. */
  datatype Attempt = Attempt(orders: seq<Order>, outcome: OrderOutcome)

  function SellAttempt(symbol: string, size: real, price: real, limit: OrderOutcome, market: OrderOutcome): (a: Attempt)
    ensures |a.orders| == (if limit.InvalidOrder? then 2 else 1)
    ensures a.orders[0] == Order(symbol, Sell, Limit(price), size)
    ensures limit.InvalidOrder? ==> a.orders[1] == Order(symbol, Sell, Market, size) && a.outcome == market
    ensures !limit.InvalidOrder? ==> a.outcome == limit
  {
    var limitOrder := Order(symbol, Sell, Limit(price), size);
    if limit.InvalidOrder? then Attempt([limitOrder, Order(symbol, Sell, Market, size)], market)
    else Attempt([limitOrder], limit)
  }

  /**
   * `execute_sell` with the bid `bid` and the outcomes of the limit and the
   * market order, computing the profit as intended (see `SellStepAsWritten`).
   */
  function SellStep(s: BotState, bid: Quote, limit: OrderOutcome, market: OrderOutcome, ctx: Context): (r: Effect)
    requires Consistent(s)
    ensures Consistent(r.state)
    ensures !s.active ==> r == Effect(Refused(NoActivePosition), s, [], [])
    ensures r.reply.Refused? ==> r.state == s && r.store == []
    ensures |r.orders| <= 2
    ensures r.orders != [] ==> (
      && s.active && bid.Quote? && r.orders[0].orderType.Limit?
      && r.orders[0] == Order(s.symbol.value, Sell, r.orders[0].orderType, s.size))
    ensures |r.orders| == 2 ==> limit.InvalidOrder? && r.orders[1] == Order(s.symbol.value, Sell, Market, s.size)
    ensures s.active && bid.Quote? && r.orders == [] ==> r.reply == Refused(DecimalFailure)
    ensures r.reply.Done? ==> (
      && |r.orders| >= 1
      && ((!limit.InvalidOrder? && limit.Placed? && r.reply.orderId == limit.id)
          || (limit.InvalidOrder? && market.Placed? && r.reply.orderId == market.id)))
    ensures r.reply.Done? ==> (
      && r.state == s.(active := false, symbol := None, size := 0.0, capital := r.state.capital)
      && r.store == [CloseOpenPositions(r.orders[0].orderType.price, s.capital + Product(s.size, r.orders[0].orderType.price))])
  {
    if !s.active then Effect(Refused(NoActivePosition), s, [], [])
    else if bid.QuoteError? then Effect(Refused(ExchangeFailure(bid.text)), s, [], [])
    else match Quantize(bid.price, Satoshi, HalfEven, ctx)
      case None => Effect(Refused(DecimalFailure), s, [], [])
      case Some(price) =>
        var a := SellAttempt(s.symbol.value, s.size, price, limit, market);
        if !a.outcome.Placed? then Effect(Refused(ExchangeFailure(a.outcome.text)), s, a.orders, [])
        else
          var newCapital := s.capital + Product(s.size, price);
          match Quantize(newCapital, Cent, HalfEven, ctx)
          case None => Effect(Refused(DecimalFailure), s, a.orders, [])
          case Some(c) =>
            Effect(Done(a.outcome.id), s.(active := false, capital := c, symbol := None, size := 0.0),
                 a.orders, [CloseOpenPositions(price, newCapital)])
  }

  /**
   * The limit price is the bid rounded half-even to a satoshi, and the new
   * capital is the proceeds rounded half-even to a cent; a value halfway
   * between two grid points goes to the even one.
   */
  lemma SellRoundsToGrids(s: BotState, bid: Quote, limit: OrderOutcome, market: OrderOutcome, ctx: Context)
    requires Consistent(s) && SellStep(s, bid, limit, market, ctx).orders != []
    ensures
      var r := SellStep(s, bid, limit, market, ctx);
      var price := r.orders[0].orderType.price;
      && HalfEvenOf(price, bid.price, Satoshi)
      && (r.reply.Done? ==> HalfEvenOf(r.state.capital, s.capital + Product(s.size, price), Cent))
  {
    var r := SellStep(s, bid, limit, market, ctx);
    var q := Quantize(bid.price, Satoshi, HalfEven, ctx);
    assert q.Some? && r.orders[0].orderType.price == q.value;
    if r.reply.Done? {
      var c := Quantize(s.capital + Product(s.size, q.value), Cent, HalfEven, ctx);
      assert c.Some? && r.state.capital == c.value;
    }
  }

  /**
   * On a webhook thread (28 digits) a sell at any price up to a billion
   * completes once an order is placed.
   */
  lemma SellCompletes(s: BotState, bid: Quote, limit: OrderOutcome, market: OrderOutcome)
    requires Consistent(s) && s.active && bid.Quote? && 0.0 <= bid.price <= 1000000000.0
    requires 0.0 <= s.size <= 1000000.0 && -1000000000000.0 <= s.capital <= 1000000000000.0
    requires limit.Placed? || (limit.InvalidOrder? && market.Placed?)
    ensures SellStep(s, bid, limit, market, WorkerContext).reply == Done(if limit.Placed? then limit.id else market.id)
  {
    var price := Quantize(bid.price, Satoshi, HalfEven, WorkerContext).value;
    assert 0.0 <= price <= 1000000001.0 by {
      assert OnGrid(price, Satoshi) && price * Scale(Satoshi) > -1.0;
    }
    ProductBounded(s.size, price, 1000000.0, 1000000001.0);
    assert Quantize(s.capital + Product(s.size, price), Cent, HalfEven, WorkerContext).Some?;
  }

  /**
   * On the main thread (12 digits, where the exit handler runs) a sell
   * completes while the bid stays below 10000.
   */
  lemma SellCompletesAtShutdown(s: BotState, bid: Quote, limit: OrderOutcome, market: OrderOutcome)
    requires Consistent(s) && s.active && bid.Quote? && 0.0 <= bid.price <= 9999.0
    requires 0.0 <= s.size <= 10000.0 && -1000000000.0 <= s.capital <= 1000000000.0
    requires limit.Placed? || (limit.InvalidOrder? && market.Placed?)
    ensures SellStep(s, bid, limit, market, MainContext).reply == Done(if limit.Placed? then limit.id else market.id)
  {
    var price := Quantize(bid.price, Satoshi, HalfEven, MainContext).value;
    assert 0.0 <= price <= 10000.0 by {
      assert OnGrid(price, Satoshi) && price * Scale(Satoshi) > -1.0;
    }
    ProductBounded(s.size, price, 10000.0, 10000.0);
    assert Quantize(s.capital + Product(s.size, price), Cent, HalfEven, MainContext).Some?;
  }

  /**
   * On the main thread a bid of 10000 or more needs a 13-digit coefficient
   * at satoshi precision: quantize raises, nothing is sent, nothing changes.
   */
  lemma ShutdownRefusesHighBids(s: BotState, bid: Quote, limit: OrderOutcome, market: OrderOutcome)
    requires Consistent(s) && s.active && bid.Quote? && bid.price >= 10000.0
    ensures SellStep(s, bid, limit, market, MainContext) == Effect(Refused(DecimalFailure), s, [], [])
  {
    assert bid.price * Scale(Satoshi) >= MaxCoefficient(MainContext) as real;
  }

  // ---------------------------------------------------------------------
  // The sell as written: bot.py:161 subtracts a float from a Decimal
  // ---------------------------------------------------------------------

  /**
   * `execute_sell` exactly as written: once its order is placed it computes
   * `new_capital - config.INITIAL_CAPITAL`, a Decimal minus a float, which
   * raises TypeError before the state is updated.
   */
  function SellStepAsWritten(s: BotState, bid: Quote, limit: OrderOutcome, market: OrderOutcome, ctx: Context): (r: Effect)
    requires Consistent(s)
    ensures r.reply.Refused? && r.state == s && r.store == []
    ensures r.orders == SellStep(s, bid, limit, market, ctx).orders
    ensures SellStep(s, bid, limit, market, ctx).orders != [] && (limit.Placed? || (limit.InvalidOrder? && market.Placed?))
      ==> r.reply == Refused(OperandTypeError)
  {
    if !s.active then Effect(Refused(NoActivePosition), s, [], [])
    else if bid.QuoteError? then Effect(Refused(ExchangeFailure(bid.text)), s, [], [])
    else match Quantize(bid.price, Satoshi, HalfEven, ctx)
      case None => Effect(Refused(DecimalFailure), s, [], [])
      case Some(price) =>
        var a := SellAttempt(s.symbol.value, s.size, price, limit, market);
        if !a.outcome.Placed? then Effect(Refused(ExchangeFailure(a.outcome.text)), s, a.orders, [])
        else Effect(Refused(OperandTypeError), s, a.orders, [])
  }

  /** A position of 0.4 BTC sold at 100: the limit order is placed, yet as written the bot still holds the position. */
  lemma SellAsWrittenKeepsSoldPosition()
    ensures
      var s := BotState(true, Some("BTCEUR"), 100.0, 0.4, 0.02, 0.0, Some(98.0), Some("B1"));
      var written := SellStepAsWritten(s, Quote(100.0), Placed("S1"), Placed("S2"), WorkerContext);
      var intended := SellStep(s, Quote(100.0), Placed("S1"), Placed("S2"), WorkerContext);
      && written.orders == [Order("BTCEUR", Sell, Limit(100.0), 0.4)]
      && written.reply == Refused(OperandTypeError) && written.state.active
      && intended.reply == Done("S1") && !intended.state.active && intended.state.capital == 40.0
  {
    var s := BotState(true, Some("BTCEUR"), 100.0, 0.4, 0.02, 0.0, Some(98.0), Some("B1"));
    assert RoundHalfEven(10000000000.0) == 10000000000;
    assert Quantize(100.0, Satoshi, HalfEven, WorkerContext) == Some(100.0);
    assert RoundHalfEven(4000.0) == 4000;
    assert Quantize(0.0 + 0.4 * 100.0, Cent, HalfEven, WorkerContext) == Some(40.0);
  }

  // ---------------------------------------------------------------------
  // execute_buy
  // ---------------------------------------------------------------------

  /**
   * `execute_buy(symbol, trailing)` with the ask `ask` and the outcome of
   * the market buy. It does not look at `active`: an open position is
   * overwritten.
   */
  function BuyStep(s: BotState, symbol: string, trailing: real, ask: Quote, outcome: OrderOutcome, ctx: Context): (r: Effect)
    ensures Consistent(s) ==> Consistent(r.state)
    ensures r.reply.Refused? ==> r.state == s && r.store == []
    ensures |r.orders| <= 1
    ensures r.orders != [] ==> ask.Quote? && r.orders[0] == Order(symbol, Buy, Market, r.orders[0].amount)
    ensures r.reply.Done? ==> ask.Quote? && outcome.Placed? && r.reply.orderId == outcome.id
    ensures r.reply.Done? ==> (
      var e := r.state.entryPrice;
      && r.state.active && r.state.symbol == Some(symbol) && r.state.trailingStop == trailing
      && r.state.orderId == Some(outcome.id)
      && r.state.currentStop == Some(Product(e, 1.0 - trailing))
      && r.state.capital == s.capital - Product(e, r.state.size)
      && r.orders == [Order(symbol, Buy, Market, r.state.size)]
      && r.store == [InsertPosition(symbol, e, r.state.size, trailing)])
  {
    if ask.QuoteError? then Effect(Refused(ExchangeFailure(ask.text)), s, [], [])
    else match Quantize(ask.price, Satoshi, HalfEven, ctx)
      case None => Effect(Refused(DecimalFailure), s, [], [])
      case Some(price) =>
        if price == 0.0 then Effect(Refused(DecimalFailure), s, [], [])
        else match Quantize(Quotient(s.capital, price), Satoshi, Up, ctx)
          case None => Effect(Refused(DecimalFailure), s, [], [])
          case Some(amount) =>
            var order := Order(symbol, Buy, Market, amount);
            if !outcome.Placed? then Effect(Refused(ExchangeFailure(outcome.text)), s, [order], [])
            else
              var bought := s.(
                orderId := Some(outcome.id), active := true, symbol := Some(symbol),
                entryPrice := price, size := amount, trailingStop := trailing,
                currentStop := Some(Product(price, 1.0 - trailing)),
                capital := s.capital - Product(price, amount));
              Effect(Done(outcome.id), bought, [order], [InsertPosition(symbol, price, amount, trailing)])
  }

  /**
   * The entry price is the ask rounded half-even to a satoshi (a tie to the
   * even one), and the size is the capital over that price rounded up to a
   * satoshi.
   */
  lemma BuyRoundsToGrids(s: BotState, symbol: string, trailing: real, ask: Quote, outcome: OrderOutcome, ctx: Context)
    requires BuyStep(s, symbol, trailing, ask, outcome, ctx).reply.Done?
    ensures
      var t := BuyStep(s, symbol, trailing, ask, outcome, ctx).state;
      var e := t.entryPrice;
      && HalfEvenOf(e, ask.price, Satoshi) && e != 0.0
      && OnGrid(t.size, Satoshi)
      && (0.0 <= Quotient(s.capital, e) ==> Quotient(s.capital, e) <= t.size < Quotient(s.capital, e) + Step(Satoshi))
      && (Quotient(s.capital, e) < 0.0 ==> Quotient(s.capital, e) - Step(Satoshi) < t.size <= Quotient(s.capital, e))
  {
    var t := BuyStep(s, symbol, trailing, ask, outcome, ctx).state;
    var q := Quantize(ask.price, Satoshi, HalfEven, ctx);
    assert q.Some? && q.value != 0.0 && t.entryPrice == q.value;
    var a := Quantize(Quotient(s.capital, q.value), Satoshi, Up, ctx);
    assert a.Some? && t.size == a.value;
  }

  /** Rounding the size up spends the whole capital and at most one satoshi's worth more. */
  lemma BuySpendsAllCapital(s: BotState, symbol: string, trailing: real, ask: Quote, outcome: OrderOutcome, ctx: Context)
    requires BuyStep(s, symbol, trailing, ask, outcome, ctx).reply.Done?
    requires 0.0 <= s.capital && 0.0 < ask.price
    ensures
      var t := BuyStep(s, symbol, trailing, ask, outcome, ctx).state;
      -Product(t.entryPrice, Step(Satoshi)) < t.capital <= 0.0
  {
    BuyRoundsToGrids(s, symbol, trailing, ask, outcome, ctx);
    var t := BuyStep(s, symbol, trailing, ask, outcome, ctx).state;
    var e := t.entryPrice;
    GridPositive(e, Satoshi);
    RoundedUpCost(s.capital, e, t.size, Satoshi);
  }

  /**
   * On a webhook thread a buy at any ask from 0.0001 to a billion with a
   * capital up to 10^12 goes through once the order is placed, position or not.
   */
  lemma BuyCompletes(s: BotState, symbol: string, trailing: real, ask: Quote, outcome: OrderOutcome)
    requires ask.Quote? && 0.0001 <= ask.price <= 1000000000.0 && 0.0 <= s.capital <= 1000000000000.0
    requires outcome.Placed?
    ensures BuyStep(s, symbol, trailing, ask, outcome, WorkerContext).reply == Done(outcome.id)
  {
    var price := Quantize(ask.price, Satoshi, HalfEven, WorkerContext).value;
    assert price >= 0.00009;
    var x := Quotient(s.capital, price);
    QuotientCancels(s.capital, price);
    assert 0.0 <= x;
    assert x <= 20000000000000000.0 by {
      if x > 20000000000000000.0 {
        ProductMonotone(price, 20000000000000000.0, x);
        ProductMonotone(20000000000000000.0, 0.00009, price);
        ProductCommutes(20000000000000000.0, price);
      }
    }
    assert Quantize(x, Satoshi, Up, WorkerContext).Some?;
  }

  // ---------------------------------------------------------------------
  // The buy as written: bot.py:210 subtracts a float from a Decimal
  // ---------------------------------------------------------------------

  /**
   * `execute_buy` exactly as the webhook calls it, with the trailing stop
   * as a float: once its order is placed and `order_id`, `active`,
   * `symbol`, `entry_price`, `size` and `trailing_stop` are written,
   * `Decimal('1') - trailing` raises TypeError, before `current_stop`,
   * `capital` and the store are touched.
   */
  function BuyStepAsWritten(s: BotState, symbol: string, trailing: real, ask: Quote, outcome: OrderOutcome, ctx: Context): (r: Effect)
    ensures r.reply.Refused? && r.store == []
    ensures r.orders == BuyStep(s, symbol, trailing, ask, outcome, ctx).orders
    ensures !BuyStep(s, symbol, trailing, ask, outcome, ctx).reply.Done? ==> r == BuyStep(s, symbol, trailing, ask, outcome, ctx)
    ensures BuyStep(s, symbol, trailing, ask, outcome, ctx).reply.Done? ==> (
      && r.reply == Refused(OperandTypeError)
      && r.state == BuyStep(s, symbol, trailing, ask, outcome, ctx).state.(currentStop := s.currentStop, capital := s.capital))
  {
    if ask.QuoteError? then Effect(Refused(ExchangeFailure(ask.text)), s, [], [])
    else match Quantize(ask.price, Satoshi, HalfEven, ctx)
      case None => Effect(Refused(DecimalFailure), s, [], [])
      case Some(price) =>
        if price == 0.0 then Effect(Refused(DecimalFailure), s, [], [])
        else match Quantize(Quotient(s.capital, price), Satoshi, Up, ctx)
          case None => Effect(Refused(DecimalFailure), s, [], [])
          case Some(amount) =>
            var order := Order(symbol, Buy, Market, amount);
            if !outcome.Placed? then Effect(Refused(ExchangeFailure(outcome.text)), s, [order], [])
            else
              var halfOpen := s.(
                orderId := Some(outcome.id), active := true, symbol := Some(symbol),
                entryPrice := price, size := amount, trailingStop := trailing);
              Effect(Refused(OperandTypeError), halfOpen, [order], [])
  }

  /**
   * A webhook buy of BTCEUR at 100 with 40 of capital: the market order for
   * 0.4 is placed, yet as written the webhook answers 400, starts no
   * monitor and records nothing, and the bot is left active with no stop
   * and its whole capital.
   */
  lemma BuyAsWrittenLeavesHalfOpenPosition()
    ensures
      var s := IdleState(40.0);
      var written := BuyStepAsWritten(s, "BTCEUR", 0.02, Quote(100.0), Placed("B1"), WorkerContext);
      var intended := BuyStep(s, "BTCEUR", 0.02, Quote(100.0), Placed("B1"), WorkerContext);
      && written.orders == [Order("BTCEUR", Buy, Market, 0.4)]
      && written.reply == Refused(OperandTypeError) && StatusOf(written.reply) == 400
      && written.state.active && written.state.orderId == Some("B1") && written.state.size == 0.4
      && written.state.currentStop == None && written.state.capital == 40.0 && written.store == []
      && intended.reply == Done("B1") && StatusOf(intended.reply) == 200
      && intended.state.currentStop == Some(98.0) && intended.state.capital == 0.0
      && intended.store == [InsertPosition("BTCEUR", 100.0, 0.4, 0.02)]
  {
    assert RoundHalfEven(10000000000.0) == 10000000000;
    assert Quantize(100.0, Satoshi, HalfEven, WorkerContext) == Some(100.0);
    assert Quotient(40.0, 100.0) == 0.4;
    assert RoundUp(40000000.0) == 40000000;
    assert Quantize(0.4, Satoshi, Up, WorkerContext) == Some(0.4);
  }

  // ---------------------------------------------------------------------
  // manage_orders
  // ---------------------------------------------------------------------

  /** `self._state.get('current_stop', Decimal('0'))` */
  function StopOf(s: BotState): real {
    s.currentStop.GetOr(0.0)
  }

  /** What `exchange_client.update_order` did. */
  datatype UpdateOutcome = Updated | UpdateFailed(text: string)

  /** An `update_order(order_id, new_stop)` call. */
  datatype StopUpdate = StopUpdate(orderId: string, newStop: real)

  /** One pass of the `manage_orders` loop: the new state, the update calls, the sleep. */
  datatype ManageStep = ManageStep(state: BotState, updates: seq<StopUpdate>, pause: nat)

  /** The inputs of one pass: the `last` ticker field and the outcome of `update_order`. */
  datatype Tick = Tick(last: Quote, update: UpdateOutcome)

  /** The stop `manage_orders` proposes for the price `last`. */
  function ProposedStop(s: BotState, last: real): real {
    Product(last, 1.0 - s.trailingStop)
  }

  /** One pass of `manage_orders`: raise the stop, never close the position. */
  function ManageOnce(s: BotState, tick: Tick): (r: ManageStep)
    ensures r.state == s.(currentStop := r.state.currentStop)
    ensures StopOf(r.state) >= StopOf(s)
    ensures !s.active ==> r == ManageStep(s, [], IdlePause)
    ensures s.active ==> r.pause != IdlePause
    ensures r.state != s ==> (
      && s.active && tick.last.Quote? && tick.update.Updated? && s.orderId.Some?
      && ProposedStop(s, tick.last.price) > StopOf(s)
      && r.state.currentStop == Some(ProposedStop(s, tick.last.price)))
    ensures s.active && tick.last.Quote? && ProposedStop(s, tick.last.price) > StopOf(s)
      && s.orderId.Some? && tick.update.Updated?
      ==> r.state.currentStop == Some(ProposedStop(s, tick.last.price))
    ensures r.updates == (
      if s.active && tick.last.Quote? && ProposedStop(s, tick.last.price) > StopOf(s) && s.orderId.Some?
      then [StopUpdate(s.orderId.value, ProposedStop(s, tick.last.price))] else [])
    ensures s.active ==> (r.pause == ErrorPause <==> (
      || tick.last.QuoteError?
      || (ProposedStop(s, tick.last.price) > StopOf(s) && (s.orderId.None? || tick.update.UpdateFailed?))))
  {
    if !s.active then ManageStep(s, [], IdlePause)
    else if tick.last.QuoteError? then ManageStep(s, [], ErrorPause)
    else
      var newStop := ProposedStop(s, tick.last.price);
      if !(newStop > StopOf(s)) then ManageStep(s, [], TickPause)
      else if s.orderId.None? then ManageStep(s, [], ErrorPause)        // KeyError: 'order_id'
      else
        var call := [StopUpdate(s.orderId.value, newStop)];
        if tick.update.UpdateFailed? then ManageStep(s, call, ErrorPause)
        else ManageStep(s.(currentStop := Some(newStop)), call, TickPause)
  }

  /** Successive passes of `manage_orders`: the final state and every update call. */
  function ManageRun(s: BotState, ticks: seq<Tick>): (r: (BotState, seq<StopUpdate>))
    ensures |r.1| <= |ticks|
    ensures !s.active ==> r == (s, [])
    decreases |ticks|
  {
    if ticks == [] then (s, [])
    else
      var prev := ManageRun(s, ticks[..|ticks| - 1]);
      var step := ManageOnce(prev.0, ticks[|ticks| - 1]);
      (step.state, prev.1 + step.updates)
  }

  /** `ManageRun` over one more tick is one more `ManageOnce`. */
  lemma ManageRunSnoc(s: BotState, ticks: seq<Tick>, i: nat)
    requires i < |ticks|
    ensures
      var prev := ManageRun(s, ticks[..i]);
      var step := ManageOnce(prev.0, ticks[i]);
      ManageRun(s, ticks[..i + 1]) == (step.state, prev.1 + step.updates)
  {
    assert ticks[..i + 1][..i] == ticks[..i];
  }

  /** However long it runs, the monitor only raises `current_stop`, and only on the position's own order: it never sells and never deactivates. */
  lemma {:induction false} MonitorOnlyRaisesStop(s: BotState, ticks: seq<Tick>)
    ensures ManageRun(s, ticks).0 == s.(currentStop := ManageRun(s, ticks).0.currentStop)
    ensures StopOf(ManageRun(s, ticks).0) >= StopOf(s)
    ensures forall k :: 0 <= k < |ManageRun(s, ticks).1| ==> s.orderId == Some(ManageRun(s, ticks).1[k].orderId)
    decreases |ticks|
  {
    if ticks != [] {
      MonitorOnlyRaisesStop(s, ticks[..|ticks| - 1]);
    }
  }

  /** A position recovered from the store has no `order_id`, so the monitor never moves its stop. */
  lemma {:induction false} RecoveredStopNeverMoves(q: QueryResult, initialCapital: real, ticks: seq<Tick>)
    ensures ManageRun(LoadInitialState(q, initialCapital), ticks) == (LoadInitialState(q, initialCapital), [])
    decreases |ticks|
  {
    var s := LoadInitialState(q, initialCapital);
    if ticks != [] {
      RecoveredStopNeverMoves(q, initialCapital, ticks[..|ticks| - 1]);
      var prev := ManageRun(s, ticks[..|ticks| - 1]);
      assert prev.0 == s && prev.1 == [];
      var step := ManageOnce(prev.0, ticks[|ticks| - 1]);
      assert step.state == s && step.updates == [];
      assert prev.1 + step.updates == [];
    }
  }

  // ---------------------------------------------------------------------
  // handle_webhook dispatch
  // ---------------------------------------------------------------------

  datatype Action = BuyAction | SellAction | OtherAction

  /** `data['action'].lower()` compared with `buy` and `sell`. */
  function ActionOf(action: string): (a: Action)
    ensures a == BuyAction <==> Lower(action) == "buy"
    ensures a == SellAction <==> Lower(action) == "sell"
  {
    var lowered := Lower(action);
    if lowered == "buy" then BuyAction else if lowered == "sell" then SellAction else OtherAction
  }

  /** The HTTP status `handle_webhook` answers a buy or a sell with. */
  function StatusOf(reply: Reply): int {
    if reply.Done? then 200 else 400
  }

  // ---------------------------------------------------------------------
  // TradingBot
  // ---------------------------------------------------------------------

  class TradingBot {
    /** `_state` */
    var state: BotState
    /** Orders handed to the exchange client, oldest first. */
    var orders: seq<Order>
    /** Calls made on the store, oldest first. */
    var store: seq<StoreCall>
    /** `update_order` calls made by the monitor. */
    var stopUpdates: seq<StopUpdate>
    /** `_shutdown_event` */
    var shutdownRequested: bool
    /** Monitoring threads started by the webhook. */
    var monitors: nat

    predicate Valid()
      reads this
    {
      Consistent(state)
    }

    /** `__init__`: the state comes from `_load_initial_state`. */
    constructor (q: QueryResult, initialCapital: real)
      ensures Valid() && state == LoadInitialState(q, initialCapital)
      ensures orders == [] && store == [] && stopUpdates == [] && !shutdownRequested && monitors == 0
    {
      state := LoadInitialState(q, initialCapital);
      orders, store, stopUpdates := [], [], [];
      shutdownRequested, monitors := false, 0;
    }

    /** `execute_sell` */
    method ExecuteSell(bid: Quote, limit: OrderOutcome, market: OrderOutcome, ctx: Context) returns (reply: Reply)
      requires Valid()
      modifies this
      ensures Valid()
      ensures reply == SellStep(old(state), bid, limit, market, ctx).reply
      ensures state == SellStep(old(state), bid, limit, market, ctx).state
      ensures orders == old(orders) + SellStep(old(state), bid, limit, market, ctx).orders
      ensures store == old(store) + SellStep(old(state), bid, limit, market, ctx).store
      ensures stopUpdates == old(stopUpdates) && shutdownRequested == old(shutdownRequested) && monitors == old(monitors)
    {
      ghost var step := SellStep(state, bid, limit, market, ctx);
      if !state.active {
        return Refused(NoActivePosition);
      }
      if bid.QuoteError? {
        return Refused(ExchangeFailure(bid.text));
      }
      var quantized := Quantize(bid.price, Satoshi, HalfEven, ctx);
      if quantized.None? {
        return Refused(DecimalFailure);
      }
      var price := quantized.value;
      ghost var attempt := SellAttempt(state.symbol.value, state.size, price, limit, market);
      assert step.orders == attempt.orders;
      var outcome := limit;
      orders := orders + [Order(state.symbol.value, Sell, Limit(price), state.size)];
      if limit.InvalidOrder? {
        orders := orders + [Order(state.symbol.value, Sell, Market, state.size)];
        outcome := market;
      }
      if !outcome.Placed? {
        return Refused(ExchangeFailure(outcome.text));
      }
      var newCapital := state.capital + Product(state.size, price);
      var rounded := Quantize(newCapital, Cent, HalfEven, ctx);
      if rounded.None? {
        return Refused(DecimalFailure);
      }
      state := state.(active := false, capital := rounded.value, symbol := None, size := 0.0);
      // what `db_manager.transactional` returns is not looked at
      store := store + [CloseOpenPositions(price, newCapital)];
      reply := Done(outcome.id);
    }

    /** `execute_buy(symbol, trailing)` */
    method ExecuteBuy(sym: string, trailing: real, ask: Quote, outcome: OrderOutcome, ctx: Context) returns (reply: Reply)
      requires Valid()
      modifies this
      ensures Valid()
      ensures reply == BuyStep(old(state), sym, trailing, ask, outcome, ctx).reply
      ensures state == BuyStep(old(state), sym, trailing, ask, outcome, ctx).state
      ensures orders == old(orders) + BuyStep(old(state), sym, trailing, ask, outcome, ctx).orders
      ensures store == old(store) + BuyStep(old(state), sym, trailing, ask, outcome, ctx).store
      ensures stopUpdates == old(stopUpdates) && shutdownRequested == old(shutdownRequested) && monitors == old(monitors)
    {
      ghost var step := BuyStep(state, sym, trailing, ask, outcome, ctx);
      if ask.QuoteError? {
        return Refused(ExchangeFailure(ask.text));
      }
      var quantized := Quantize(ask.price, Satoshi, HalfEven, ctx);
      if quantized.None? || quantized.value == 0.0 {
        return Refused(DecimalFailure);
      }
      var price := quantized.value;
      var rounded := Quantize(Quotient(state.capital, price), Satoshi, Up, ctx);
      if rounded.None? {
        return Refused(DecimalFailure);
      }
      var amount := rounded.value;
      orders := orders + [Order(sym, Buy, Market, amount)];
      if !outcome.Placed? {
        return Refused(ExchangeFailure(outcome.text));
      }
      state := state.(orderId := Some(outcome.id));
      state := state.(active := true, symbol := Some(sym), entryPrice := price, size := amount, trailingStop := trailing);
      state := state.(currentStop := Some(Product(price, 1.0 - trailing)));
      state := state.(capital := state.capital - Product(price, amount));
      // what `db_manager.transactional` returns is not looked at
      store := store + [InsertPosition(sym, price, amount, trailing)];
      reply := Done(outcome.id);
    }

    /** One pass of the `manage_orders` loop; returns the seconds it then sleeps. */
    method ManageTick(tick: Tick) returns (pause: nat)
      requires Valid()
      modifies this
      ensures Valid()
      ensures state == ManageOnce(old(state), tick).state
      ensures stopUpdates == old(stopUpdates) + ManageOnce(old(state), tick).updates
      ensures pause == ManageOnce(old(state), tick).pause
      ensures orders == old(orders) && store == old(store)
      ensures shutdownRequested == old(shutdownRequested) && monitors == old(monitors)
    {
      if !state.active {
        return IdlePause;
      }
      if tick.last.QuoteError? {
        return ErrorPause;
      }
      var newStop := Product(tick.last.price, 1.0 - state.trailingStop);
      if newStop > state.currentStop.GetOr(0.0) {
        if state.orderId.None? {
          return ErrorPause;
        }
        stopUpdates := stopUpdates + [StopUpdate(state.orderId.value, newStop)];
        if tick.update.UpdateFailed? {
          return ErrorPause;
        }
        state := state.(currentStop := Some(newStop));
      }
      pause := TickPause;
    }

    /**
     * `manage_orders`: one pass per tick until the ticks run out or the
     * shutdown event is set.
     */
    method ManageOrders(ticks: seq<Tick>)
      requires Valid()
      modifies this
      ensures Valid()
      ensures old(shutdownRequested) ==> state == old(state) && stopUpdates == old(stopUpdates)
      ensures !old(shutdownRequested) ==> (
        && state == ManageRun(old(state), ticks).0
        && stopUpdates == old(stopUpdates) + ManageRun(old(state), ticks).1)
      ensures orders == old(orders) && store == old(store)
      ensures shutdownRequested == old(shutdownRequested) && monitors == old(monitors)
    {
      if shutdownRequested {
        return;
      }
      ghost var start := state;
      var i := 0;
      while i < |ticks| && !shutdownRequested
        invariant 0 <= i <= |ticks|
        invariant Consistent(state)
        invariant state == ManageRun(start, ticks[..i]).0
        invariant stopUpdates == old(stopUpdates) + ManageRun(start, ticks[..i]).1
        invariant orders == old(orders) && store == old(store)
        invariant shutdownRequested == old(shutdownRequested) && monitors == old(monitors)
      {
        ManageRunSnoc(start, ticks, i);
        var _ := ManageTick(ticks[i]);
        i := i + 1;
      }
      assert ticks[..|ticks|] == ticks;
    }

    /** `shutdown`: set the event, sell an open position, then close the pool. */
    method Shutdown(bid: Quote, limit: OrderOutcome, market: OrderOutcome)
      requires Valid()
      modifies this
      ensures Valid() && shutdownRequested
      ensures old(state).active ==> (
        && state == SellStep(old(state), bid, limit, market, MainContext).state
        && orders == old(orders) + SellStep(old(state), bid, limit, market, MainContext).orders
        && store == old(store) + SellStep(old(state), bid, limit, market, MainContext).store + [ClosePool])
      ensures !old(state).active ==> state == old(state) && orders == old(orders) && store == old(store) + [ClosePool]
      ensures stopUpdates == old(stopUpdates) && monitors == old(monitors)
    {
      shutdownRequested := true;
      if state.active {
        var _ := ExecuteSell(bid, limit, market, MainContext);
      }
      store := store + [ClosePool];
    }

    /**
     * The buy/sell dispatch of `handle_webhook`. `trailing` is the signal's
     * `trailing_stop`, if it has one; `ticker` is the ask for a buy and the
     * bid for a sell; `first` is the buy's or the limit sell's outcome and
     * `second` the market sell's.
     */
    method HandleWebhook(action: string, sym: string, trailing: Option<real>, ticker: Quote,
                         first: OrderOutcome, second: OrderOutcome)
      returns (status: int, reply: Option<Reply>)
      requires Valid()
      modifies this
      ensures Valid()
      ensures ActionOf(action) == BuyAction ==> (
        var step := BuyStep(old(state), sym, trailing.GetOr(DefaultTrailing), ticker, first, WorkerContext);
        && reply == Some(step.reply) && state == step.state
        && orders == old(orders) + step.orders && store == old(store) + step.store
        && monitors == old(monitors) + (if step.reply.Done? then 1 else 0)
        && status == StatusOf(step.reply))
      ensures ActionOf(action) == SellAction ==> (
        var step := SellStep(old(state), ticker, first, second, WorkerContext);
        && reply == Some(step.reply) && state == step.state
        && orders == old(orders) + step.orders && store == old(store) + step.store
        && monitors == old(monitors)
        && status == StatusOf(step.reply))
      ensures ActionOf(action) == OtherAction ==> (
        && status == 400 && reply == None
        && state == old(state) && orders == old(orders) && store == old(store) && monitors == old(monitors))
      ensures stopUpdates == old(stopUpdates) && shutdownRequested == old(shutdownRequested)
    {
      var a := ActionOf(action);
      if a == BuyAction {
        var r := ExecuteBuy(sym, trailing.GetOr(DefaultTrailing), ticker, first, WorkerContext);
        if r.Done? {
          monitors := monitors + 1;
          return 200, Some(r);
        }
        return 400, Some(r);
      } else if a == SellAction {
        var r := ExecuteSell(ticker, first, second, WorkerContext);
        return if r.Done? then 200 else 400, Some(r);
      }
      return 400, None;
    }
  }
}
