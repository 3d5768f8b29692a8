/** The order lifecycle of the live/paper engine, as functions on a snapshot
    of its collections: a signal becomes a built order, the order is placed
    and queued, the queue is polled against the broker, and each order ends
    as an open position, a closed position, or a rejected or canceled
    record. The engine object in module Engine is proved to follow these. */
module Lifecycle {
  import opened Wrappers
  import opened Records
  import opened Numeric
  import opened Text
  import opened OrderBuilding
  import ApiTasks
  import OrderedDict

  /** What the engine instance is fixed with: the trader's Name, the account
      id, whether it trades live, and the builder's option-symbol formatter
      and take-profit and stop-loss factors. */
  datatype Ctx = Ctx(trader: string, accountId: string, mode: AccountMode,
                     format: Formatter, takeProfit: real, stopLoss: real)

  /** The engine's collections. The keyed ones hold this trader's documents
      under (Trader, Symbol, Strategy); closed_positions, rejected and
      canceled only grow; strategies are looked up by name. */
  datatype Db = Db(
    queue: map<Key, QueueEntry>,
    open: map<Key, PositionDoc>,
    closed: seq<ClosedDoc>,
    rejected: seq<Audit>,
    canceled: seq<Audit>,
    strategies: map<string, StrategyDoc>)

  /** The collections together with the order builder's two records. */
  datatype World = World(db: Db, builder: BuilderState)

  function KeyOf(ctx: Ctx, symbol: string, strategy: string): Key
  {
    Key(ctx.trader, symbol, strategy)
  }

  /** The collections as the engine keeps them: every document sits under
      its own key and belongs to this trader and account, and a queue entry
      closes a position exactly when that position is open. A pending close
      leaves its position open, so a key may be both queued and open. */
  predicate Inv(ctx: Ctx, db: Db)
  {
    Keyed(ctx, db.queue, db.open)
  }

  predicate Keyed(ctx: Ctx, queue: map<Key, QueueEntry>, open: map<Key, PositionDoc>)
  {
    && (forall k :: k in queue ==>
          k.trader == ctx.trader && queue[k].symbol == k.symbol && queue[k].strategy == k.strategy
          && queue[k].accountId == ctx.accountId)
    && (forall k :: k in open ==>
          k.trader == ctx.trader && open[k].symbol == k.symbol && open[k].strategy == k.strategy
          && open[k].accountId == ctx.accountId)
    && (forall k :: k in queue ==> (queue[k].direction == ClosePosition <==> k in open))
  }

  /** Dropping a queue entry, or changing its status, keeps the invariant. */
  lemma KeyedDropOrRestatus(ctx: Ctx, queue: map<Key, QueueEntry>, open: map<Key, PositionDoc>, k: Key, status: Option<string>)
    requires Keyed(ctx, queue, open)
    ensures Keyed(ctx, queue - {k}, open)
    ensures k in queue ==> Keyed(ctx, queue[k := queue[k].(status := status)], open)
  {
  }

  /** The stores that only grow did only grow. */
  predicate Grows(a: Db, b: Db)
  {
    a.closed <= b.closed && a.rejected <= b.rejected && a.canceled <= b.canceled
  }

  lemma GrowsTrans(a: Db, b: Db, c: Db)
    requires Grows(a, b) && Grows(b, c)
    ensures Grows(a, c)
  {
  }

  // ---------------------------------------------------------------------
  // Direction of a signal

  /** The pairings that close a position: a buy against a short, a sell
      against a long. */
  predicate ClosingSignal(side: Side, pt: PositionType)
  {
    (side == Buy && pt == Short) || (side == Sell && pt == Long)
    || (side == SellToClose && pt == Long) || (side == BuyToClose && pt == Short)
  }

  /** The pairings that open a position: a buy for a long, a sell for a
      short. */
  predicate OpeningSignal(side: Side, pt: PositionType)
  {
    (side == Buy && pt == Long) || (side == Sell && pt == Short)
    || (side == SellToOpen && pt == Short) || (side == BuyToOpen && pt == Long)
  }

  /** The direction `runTrader` sends a signal with, or None when it skips
      it. */
  function Decide(side: Side, pt: PositionType, hasOpen: bool, forbidden: bool): (d: Option<Direction>)
    ensures d == Some(ClosePosition) <==> hasOpen && ClosingSignal(side, pt)
    ensures d == Some(OpenPosition) <==> !hasOpen && !forbidden && OpeningSignal(side, pt)
  {
    if hasOpen then (if ClosingSignal(side, pt) then Some(ClosePosition) else None)
    else if !forbidden && OpeningSignal(side, pt) then Some(OpenPosition)
    else None
  }

  /** A close trades against the position and an open trades with it. */
  lemma DecideTradesConsistently(side: Side, pt: PositionType, hasOpen: bool, forbidden: bool)
    ensures Decide(side, pt, hasOpen, forbidden) == Some(ClosePosition) ==> (IsBuySide(side) <==> pt == Short)
    ensures Decide(side, pt, hasOpen, forbidden) == Some(OpenPosition) ==> (IsBuySide(side) <==> pt == Long)
  {
  }

  // ---------------------------------------------------------------------
  // Placing and queueing

  /** `randint(100_000_000, 999_999_999)` */
  type PaperDraw = x: int | 100000000 <= x <= 999999999 witness 100000000

  /** What one `sendOrder` call meets outside the engine: the token check,
      the quote, the clock, the broker's reply status and Location header,
      and the paper trader's random draw. */
  datatype SendEnv = SendEnv(tokenOk: bool, quote: Option<Quote>, now: Timestamp, status: int,
                             location: Option<string>, draw: PaperDraw)

  datatype SendOutcome = TokenInvalid | UnknownOrderType | NotBuilt | Rejected | NoOrderId | Queued(id: int)

  datatype Sent = Sent(world: World, outcome: SendOutcome)

  /** The record of a placement the broker refused. */
  function RejectionOf(ctx: Ctx, td: TradeData, now: Timestamp): Audit
  {
    Audit(td.symbol, SideLabel(td.side), "REJECTED", td.strategy, ctx.trader, now, ctx.accountId)
  }

  /** The order id in a Location header: the text after its last "/",
      stripped and read as an integer. */
  function LocationOrderId(location: string): Option<int>
  {
    ParseInt(Strip(LastSegment(location, '/')))
  }

  /** A Location ending in "/" and a number yields that number. */
  lemma LocationOrderIdOf(base: string, n: nat)
    ensures LocationOrderId(base + "/" + DecimalString(n)) == Some(n)
  {
    var digits := DecimalString(n);
    assert '/' !in digits;
    LastSegmentAfter(base, digits, '/');
    StripUnchanged(digits);
    ParseDecimalString(n);
  }

  /** The queue document `queueOrder` writes from the builder's record. */
  function EntryOf(ctx: Ctx, obj: Draft): (e: QueueEntry)
    requires Complete(obj) && obj.mode.Some?
    ensures e.symbol == obj.symbol.value && e.strategy == obj.strategy.value && e.accountId == ctx.accountId
    ensures e.direction == obj.direction.value && e.side == obj.side.value && e.qty == obj.qty.value
    ensures e.orderId == obj.orderId && e.status == obj.status && e.mode == obj.mode.value
  {
    var mode := obj.mode.value;
    QueueEntry(obj.symbol.value, obj.strategy.value, ctx.accountId, obj.side.value, obj.assetType.value,
               obj.positionType.value, obj.orderType.value, obj.direction.value, obj.qty.value,
               obj.positionSize.value, obj.entry.value, obj.exit, obj.option, obj.orderId, obj.status, mode)
  }

  /** `$set` of a record onto an existing document: the fields the record
      lacks (an exit, option fields) keep their old values. */
  function SetOnto(prev: QueueEntry, e: QueueEntry): (r: QueueEntry)
    ensures r.exit == (if e.exit.Some? then e.exit else prev.exit)
    ensures r.option == (if e.option.Some? then e.option else prev.option)
    ensures r.(exit := e.exit, option := e.option) == e
  {
    e.(exit := if e.exit.Some? then e.exit else prev.exit, option := if e.option.Some? then e.option else prev.option)
  }

  /** `queueOrder`: an upsert keyed by (Trader, Symbol, Strategy), so a key
      never holds two entries. */
  function QueueSpec(ctx: Ctx, db: Db, e: QueueEntry): (r: Db)
    ensures r == db.(queue := r.queue)
    ensures r.queue.Keys == db.queue.Keys + {KeyOf(ctx, e.symbol, e.strategy)}
    ensures forall k :: k in db.queue && k != KeyOf(ctx, e.symbol, e.strategy) ==> r.queue[k] == db.queue[k]
    ensures KeyOf(ctx, e.symbol, e.strategy) !in db.queue ==> r.queue[KeyOf(ctx, e.symbol, e.strategy)] == e
    ensures var q := r.queue[KeyOf(ctx, e.symbol, e.strategy)];
            q.(exit := e.exit, option := e.option) == e
  {
    var key := KeyOf(ctx, e.symbol, e.strategy);
    var entry := if key in db.queue then SetOnto(db.queue[key], e) else e;
    db.(queue := db.queue[key := entry])
  }

  /** The build a strategy's order type calls for, or None for an unknown
      order type. */
  function BuildFor(ctx: Ctx, b: BuilderState, td: TradeData, strat: StrategyDoc, dir: Direction, env: SendEnv)
    : (r: Option<Build>)
    ensures r.None? <==> strat.orderType.OtherOrderType?
    ensures r.Some? && r.value.outcome == Built ==> Complete(r.value.state.obj) && Describes(r.value.state.obj, td, strat, dir)
    ensures r.Some? ==> r.value.state.obj.orderId == b.obj.orderId && r.value.state.obj.status == b.obj.status
  {
    match strat.orderType
    case Standard => Some(StandardSpec(b, td, strat, dir, false, env.quote, env.now, ctx.format))
    case Oco => Some(OcoSpec(b, td, strat, dir, env.quote, env.now, ctx.format, ctx.takeProfit, ctx.stopLoss))
    case OtherOrderType(_) => None
  }

  /** `sendOrder`: build, place (live) or simulate (paper), then queue. */
  function SendSpec(ctx: Ctx, w: World, td: TradeData, strat: StrategyDoc, dir: Direction, env: SendEnv): (r: Sent)
    ensures r.outcome == TokenInvalid <==> !env.tokenOk
    ensures r.outcome == TokenInvalid || r.outcome == UnknownOrderType ==> r.world == w
    ensures r.outcome == NotBuilt || r.outcome == NoOrderId ==> r.world.db == w.db
    ensures r.outcome == Rejected ==>
              ctx.mode == Live && env.status != 200 && env.status != 201
              && r.world.db == w.db.(rejected := w.db.rejected + [RejectionOf(ctx, td, env.now)])
    ensures r.outcome.Queued? ==>
              var key := KeyOf(ctx, td.symbol, td.strategy);
              && r.world.db == w.db.(queue := r.world.db.queue)
              && r.world.db.queue.Keys == w.db.queue.Keys + {key}
              && (forall k :: k in w.db.queue && k != key ==> r.world.db.queue[k] == w.db.queue[k])
              && r.world.db.queue[key].orderId == Some(r.outcome.id)
              && r.world.db.queue[key].status == Some("QUEUED")
              && r.world.db.queue[key].mode == ctx.mode
              && r.world.db.queue[key].direction == dir
              && r.world.db.queue[key].symbol == td.symbol && r.world.db.queue[key].strategy == td.strategy
              && r.world.db.queue[key].accountId == ctx.accountId
    ensures r.outcome.Queued? && ctx.mode == Paper ==> -999999999 <= r.outcome.id <= -100000000
    ensures r.outcome.Queued? && ctx.mode == Live ==>
              (env.status == 200 || env.status == 201) && env.location.Some?
              && LocationOrderId(env.location.value) == Some(r.outcome.id)
    ensures r.outcome == UnknownOrderType <==> env.tokenOk && strat.orderType.OtherOrderType?
    ensures var build := BuildFor(ctx, w.builder, td, strat, dir, env);
            r.outcome == NotBuilt <==> env.tokenOk && build.Some? && build.value.outcome != Built
    ensures var build := BuildFor(ctx, w.builder, td, strat, dir, env);
            env.tokenOk && build.Some? && build.value.outcome == Built ==>
              && (ctx.mode == Live && env.status != 200 && env.status != 201 ==> r.outcome == Rejected)
              && (ctx.mode == Live && (env.status == 200 || env.status == 201) ==>
                    (r.outcome.Queued? <==> env.location.Some? && LocationOrderId(env.location.value).Some?))
              && (ctx.mode == Paper ==> r.outcome.Queued?)
  {
    if !env.tokenOk then Sent(w, TokenInvalid)
    else
      var build := BuildFor(ctx, w.builder, td, strat, dir, env);
      if build.None? then Sent(w, UnknownOrderType)
      else if build.value.outcome != Built then Sent(World(w.db, build.value.state), NotBuilt)
      else PlaceSpec(ctx, w.db, build.value.state, td, env)
  }

  /** The part of `sendOrder` after a successful build: place the order
      (live) or draw its id (paper), then queue it. */
  function PlaceSpec(ctx: Ctx, db: Db, st: BuilderState, td: TradeData, env: SendEnv): (r: Sent)
    requires Complete(st.obj)
  {
    var id: Option<int> :=
      match ctx.mode
      case Paper => Some(-(env.draw as int))
      case Live =>
        if (env.status != 200 && env.status != 201) || env.location.None? then None
        else LocationOrderId(env.location.value);
    if ctx.mode == Live && env.status != 200 && env.status != 201 then
      Sent(World(db.(rejected := db.rejected + [RejectionOf(ctx, td, env.now)]), st), Rejected)
    else if id.None? then Sent(World(db, st), NoOrderId)
    else
      var obj := st.obj.(orderId := id, mode := Some(ctx.mode), status := Some("QUEUED"));
      Sent(World(QueueSpec(ctx, db, EntryOf(ctx, obj)), st.(obj := obj)), Queued(id.value))
  }

  /** A send touches no store but the queue and rejected. */
  lemma SendTouches(ctx: Ctx, w: World, td: TradeData, strat: StrategyDoc, dir: Direction, env: SendEnv)
    ensures var r := SendSpec(ctx, w, td, strat, dir, env).world.db;
            r.open == w.db.open && r.closed == w.db.closed && r.canceled == w.db.canceled
            && r.strategies == w.db.strategies && Grows(w.db, r)
  {
  }

  /** Queueing this account's entry keeps the invariant when the entry's
      direction agrees with the open positions. */
  lemma QueueKeepsInv(ctx: Ctx, db: Db, e: QueueEntry)
    requires Inv(ctx, db)
    requires e.accountId == ctx.accountId
    requires e.direction == ClosePosition <==> KeyOf(ctx, e.symbol, e.strategy) in db.open
    ensures Inv(ctx, QueueSpec(ctx, db, e))
  {
    var r := QueueSpec(ctx, db, e);
    var key := KeyOf(ctx, e.symbol, e.strategy);
    forall k | k in r.queue
      ensures k.trader == ctx.trader && r.queue[k].symbol == k.symbol && r.queue[k].strategy == k.strategy
      ensures r.queue[k].accountId == ctx.accountId
      ensures r.queue[k].direction == ClosePosition <==> k in r.open
    {
      if k != key {
        assert k in db.queue;
      }
    }
  }

  /** Sending keeps the invariant when the direction agrees with the open
      positions, as `runTrader` ensures. */
  lemma SendKeepsInv(ctx: Ctx, w: World, td: TradeData, strat: StrategyDoc, dir: Direction, env: SendEnv)
    requires Inv(ctx, w.db)
    requires dir == ClosePosition <==> KeyOf(ctx, td.symbol, td.strategy) in w.db.open
    ensures Inv(ctx, SendSpec(ctx, w, td, strat, dir, env).world.db)
  {
    var r := SendSpec(ctx, w, td, strat, dir, env);
    if r.outcome.Queued? {
      var st := BuildFor(ctx, w.builder, td, strat, dir, env).value.state;
      assert r == PlaceSpec(ctx, w.db, st, td, env);
      var obj := st.obj.(orderId := Some(r.outcome.id), mode := Some(ctx.mode), status := Some("QUEUED"));
      assert r.world.db == QueueSpec(ctx, w.db, EntryOf(ctx, obj));
      QueueKeepsInv(ctx, w.db, EntryOf(ctx, obj));
    }
  }

  // ---------------------------------------------------------------------
  // Resolving a fill

  /** The fields `pushOrder` reads from the document it is handed. */
  datatype PushSource = PushSource(
    symbol: string,
    strategy: string,
    side: Side,
    accountId: string,
    positionSize: int,
    assetType: string,
    positionType: PositionType,
    direction: Direction,
    mode: AccountMode,
    orderType: OrderType,
    qty: int,
    option: Option<OptionInfo>)

  /** A queue entry carries every field. */
  function FromEntry(e: QueueEntry): (src: PushSource)
    ensures src.symbol == e.symbol && src.strategy == e.strategy && src.accountId == e.accountId
    ensures src.direction == e.direction && src.qty == e.qty && src.option == e.option
  {
    PushSource(e.symbol, e.strategy, e.side, e.accountId, e.positionSize, e.assetType, e.positionType,
               e.direction, e.mode, e.orderType, e.qty, e.option)
  }

  /** An open position lacks Side and Direction unless something outside
      the engine wrote them; reading it then raises. */
  function FromPosition(p: PositionDoc): (src: Option<PushSource>)
    ensures src.Some? <==> p.side.Some? && p.direction.Some?
    ensures src.Some? ==> src.value.symbol == p.symbol && src.value.strategy == p.strategy && src.value.accountId == p.accountId
  {
    if p.side.None? || p.direction.None? then None
    else Some(PushSource(p.symbol, p.strategy, p.side.value, p.accountId, p.positionSize, p.assetType, p.positionType,
                         p.direction.value, p.mode, p.orderType, p.qty, p.option))
  }

  /** The reply `pushOrder` reads the fill from: the engine's own price for
      an order the broker no longer knows, or the broker's order. */
  datatype FillReply = Custom(price: real) | Reply(order: BrokerOrder)

  /** The fill price and share count: the first execution price and the
      order quantity when the order has an activity collection, else its
      price and the queued quantity. None when a field it reads is missing. */
  function FillOf(qty: int, reply: FillReply): (r: Option<(real, int)>)
    ensures reply.Custom? ==> r == Some((reply.price, qty))
    ensures reply.Reply? && reply.order.activity.Some? ==>
              (r.Some? <==> reply.order.activity.value.Some? && reply.order.quantity.Some?)
              && (r.Some? ==> r.value == (reply.order.activity.value.value, Trunc(reply.order.quantity.value)))
    ensures reply.Reply? && reply.order.activity.None? ==>
              (r.Some? <==> reply.order.price.Some?) && (r.Some? ==> r.value == (reply.order.price.value, qty))
  {
    match reply
    case Custom(p) => Some((p, qty))
    case Reply(o) =>
      if o.activity.Some? then
        if o.activity.value.None? || o.quantity.None? then None
        else Some((o.activity.value.value, Trunc(o.quantity.value)))
      else if o.price.None? then None
      else Some((o.price.value, qty))
  }

  /** The position document `pushOrder` builds, before the close copies the
      open position's quantity and entry into it. */
  function PositionOf(src: PushSource, integrity: Integrity, shares: int, entry: Stamp): PositionDoc
  {
    PositionDoc(src.symbol, src.strategy, src.accountId, src.positionSize, src.positionType, integrity,
                src.assetType, src.mode, src.orderType, if src.assetType == "OPTION" then src.option else None,
                shares, entry, None, None, None)
  }

  /** `delete_one` on the queue with this account's filter. */
  function Dequeue(ctx: Ctx, queue: map<Key, QueueEntry>, key: Key): (r: map<Key, QueueEntry>)
    ensures key in r ==> key in queue && queue[key].accountId != ctx.accountId
    ensures forall k :: k != key ==> (k in r <==> k in queue) && (k in r ==> r[k] == queue[k])
  {
    if key in queue && queue[key].accountId == ctx.accountId then queue - {key} else queue
  }

  /** `pushOrder`: a fill at its rounded price becomes an open position
      (OPEN) or moves the open position to closed (CLOSE), and the queue
      entry goes. A failure, swallowed by its exception handler, changes
      nothing. */
  function PushSpec(ctx: Ctx, db: Db, src: PushSource, reply: FillReply, integrity: Integrity, now: Timestamp): (r: Db)
    ensures var fill := FillOf(src.qty, reply);
            fill.None? || (src.assetType == "OPTION" && src.option.None?) ==> r == db
    ensures var fill := FillOf(src.qty, reply);
            var key := KeyOf(ctx, src.symbol, src.strategy);
            fill.Some? && !(src.assetType == "OPTION" && src.option.None?) && src.direction == OpenPosition ==>
              r == db.(open := db.open[key := PositionOf(src, integrity, fill.value.1, Stamp(FillPrice(fill.value.0), now))],
                       queue := Dequeue(ctx, db.queue, key))
    ensures var fill := FillOf(src.qty, reply);
            var key := KeyOf(ctx, src.symbol, src.strategy);
            fill.Some? && !(src.assetType == "OPTION" && src.option.None?) && src.direction == ClosePosition ==>
              if key !in db.open then r == db
              else
                var pos := db.open[key];
                r == db.(open := db.open - {key}, queue := Dequeue(ctx, db.queue, key),
                         closed := db.closed + [ClosedDoc(PositionOf(src, integrity, pos.qty, pos.entry),
                                                          Stamp(FillPrice(fill.value.0), now))])
  {
    var fill := FillOf(src.qty, reply);
    if fill.None? || (src.assetType == "OPTION" && src.option.None?) then db
    else
      var price := FillPrice(fill.value.0);
      var key := KeyOf(ctx, src.symbol, src.strategy);
      match src.direction
      case OpenPosition =>
        db.(open := db.open[key := PositionOf(src, integrity, fill.value.1, Stamp(price, now))],
            queue := Dequeue(ctx, db.queue, key))
      case ClosePosition =>
        if key !in db.open then db
        else
          var pos := db.open[key];
          db.(open := db.open - {key}, queue := Dequeue(ctx, db.queue, key),
              closed := db.closed + [ClosedDoc(PositionOf(src, integrity, pos.qty, pos.entry), Stamp(price, now))])
  }

  /** A push that does anything resolves its key: afterwards the key holds
      no queue entry, it is open exactly after an opening fill, and every
      other key keeps its entry and its position. */
  lemma PushResolves(ctx: Ctx, db: Db, src: PushSource, reply: FillReply, integrity: Integrity, now: Timestamp)
    requires Inv(ctx, db)
    ensures var r := PushSpec(ctx, db, src, reply, integrity, now);
            var key := KeyOf(ctx, src.symbol, src.strategy);
            && Grows(db, r)
            && (r != db ==> key !in r.queue && (key in r.open <==> src.direction == OpenPosition))
            && (forall k :: k != key ==> (k in r.queue <==> k in db.queue) && (k in r.open <==> k in db.open))
            && r.rejected == db.rejected && r.canceled == db.canceled && r.strategies == db.strategies
  {
  }

  /** Pushing keeps the invariant for a source of this trader's account. */
  lemma PushKeepsInv(ctx: Ctx, db: Db, src: PushSource, reply: FillReply, integrity: Integrity, now: Timestamp)
    requires Inv(ctx, db)
    requires src.accountId == ctx.accountId
    ensures Inv(ctx, PushSpec(ctx, db, src, reply, integrity, now))
  {
    var r := PushSpec(ctx, db, src, reply, integrity, now);
    var key := KeyOf(ctx, src.symbol, src.strategy);
    PushResolves(ctx, db, src, reply, integrity, now);
    forall k | k in r.queue
      ensures r.queue[k].direction == ClosePosition <==> k in r.open
    {
      assert k != key || r == db;
      assert r.queue[k] == db.queue[k];
    }
  }

  // ---------------------------------------------------------------------
  // Polling the queue

  /** The audit record of an order the broker canceled or rejected. */
  function AuditOf(ctx: Ctx, symbol: string, strategy: string, orderType: OrderType, status: string, now: Timestamp): Audit
  {
    Audit(symbol, TypeLabel(orderType), status, strategy, ctx.trader, now, ctx.accountId)
  }

  /** Whether the poll's query selects the entry under k: it has an order id
      and belongs to this account. */
  predicate Polled(ctx: Ctx, db: Db, k: Key)
  {
    k in db.queue && db.queue[k].orderId.Some? && db.queue[k].accountId == ctx.accountId
  }

  /** One queue entry of `updateStatus`, given the broker's view of each
      order id. */
  function UpdateStep(ctx: Ctx, db: Db, k: Key, lookup: int -> BrokerReply, now: Timestamp): (r: Run<Db>)
    ensures !Polled(ctx, db, k) ==> r == Running(db)
    ensures Polled(ctx, db, k) && lookup(db.queue[k].orderId.value).NotFound? ==>
              var e := db.queue[k];
              var integrity := if ctx.mode == Live then Assumed else Reliable;
              if e.direction == OpenPosition then r == Running(PushSpec(ctx, db, FromEntry(e), Custom(e.entry.price), integrity, now))
              else if e.exit.None? then r == Stopped(db)
              else r == Running(PushSpec(ctx, db, FromEntry(e), Custom(e.exit.value.price), integrity, now))
    ensures Polled(ctx, db, k) && lookup(db.queue[k].orderId.value).Found? ==>
              var e := db.queue[k];
              var o := lookup(e.orderId.value).order;
              if o.orderId != e.orderId then r == Running(db)
              else if o.status == Some("FILLED") then
                if e.orderType == Oco && ApiTasks.ExtractOCOChildren(o).None? then r == Stopped(db)
                else r == Running(PushSpec(ctx, db, FromEntry(e), Reply(o), Reliable, now))
              else if o.status == Some("CANCELED") then
                r == Running(db.(queue := db.queue - {k},
                                 canceled := db.canceled + [AuditOf(ctx, e.symbol, e.strategy, e.orderType, "CANCELED", now)]))
              else if o.status == Some("REJECTED") then
                r == Running(db.(queue := db.queue - {k},
                                 rejected := db.rejected + [AuditOf(ctx, e.symbol, e.strategy, e.orderType, "REJECTED", now)]))
              else r == Running(db.(queue := db.queue[k := e.(status := o.status)]))
  {
    if !Polled(ctx, db, k) then Running(db)
    else
      var e := db.queue[k];
      var id := e.orderId.value;
      match lookup(id)
      case NotFound =>
        var integrity := if ctx.mode == Live then Assumed else Reliable;
        if e.direction == OpenPosition then Running(PushSpec(ctx, db, FromEntry(e), Custom(e.entry.price), integrity, now))
        else if e.exit.None? then Stopped(db)
        else Running(PushSpec(ctx, db, FromEntry(e), Custom(e.exit.value.price), integrity, now))
      case Found(o) =>
        if o.orderId != Some(id) then Running(db)
        else if o.status == Some("FILLED") then
          if e.orderType == Oco && ApiTasks.ExtractOCOChildren(o).None? then Stopped(db)
          else Running(PushSpec(ctx, db, FromEntry(e), Reply(o), Reliable, now))
        else if o.status == Some("CANCELED") || o.status == Some("REJECTED") then
          var audit := AuditOf(ctx, e.symbol, e.strategy, e.orderType, o.status.value, now);
          if o.status == Some("REJECTED") then Running(db.(queue := db.queue - {k}, rejected := db.rejected + [audit]))
          else Running(db.(queue := db.queue - {k}, canceled := db.canceled + [audit]))
        else Running(db.(queue := db.queue[k := e.(status := o.status)]))
  }

  lemma UpdateStepKeeps(ctx: Ctx, db: Db, k: Key, lookup: int -> BrokerReply, now: Timestamp)
    requires Inv(ctx, db)
    ensures Inv(ctx, UpdateStep(ctx, db, k, lookup, now).value)
    ensures Grows(db, UpdateStep(ctx, db, k, lookup, now).value)
  {
    if Polled(ctx, db, k) {
      var e := db.queue[k];
      assert FromEntry(e).accountId == ctx.accountId;
      match lookup(e.orderId.value)
      case NotFound =>
        var integrity := if ctx.mode == Live then Assumed else Reliable;
        var p := if e.direction == OpenPosition then e.entry.price else if e.exit.Some? then e.exit.value.price else 0.0;
        PushKeepsInv(ctx, db, FromEntry(e), Custom(p), integrity, now);
        PushResolves(ctx, db, FromEntry(e), Custom(p), integrity, now);
      case Found(o) =>
        if o.orderId == e.orderId && o.status == Some("FILLED") {
          PushKeepsInv(ctx, db, FromEntry(e), Reply(o), Reliable, now);
          PushResolves(ctx, db, FromEntry(e), Reply(o), Reliable, now);
        } else {
          KeyedDropOrRestatus(ctx, db.queue, db.open, k, o.status);
        }
    }
  }

  /** The poll over the cursor's keys, stopping at the first exception. */
  function UpdateRun(ctx: Ctx, db: Db, keys: seq<Key>, lookup: int -> BrokerReply, now: Timestamp): Run<Db>
    decreases |keys|
  {
    if |keys| == 0 then Running(db)
    else
      match UpdateStep(ctx, db, keys[0], lookup, now)
      case Stopped(d) => Stopped(d)
      case Running(d) => UpdateRun(ctx, d, keys[1..], lookup, now)
  }

  /** `updateStatus`: nothing without a valid token; otherwise the poll,
      whose exception ends it with the writes made so far. */
  function UpdateStatusSpec(ctx: Ctx, db: Db, tokenOk: bool, cursor: seq<Key>, lookup: int -> BrokerReply, now: Timestamp)
    : (r: Db)
    ensures !tokenOk ==> r == db
  {
    if !tokenOk then db else UpdateRun(ctx, db, cursor, lookup, now).value
  }

  lemma {:induction false} UpdateRunKeeps(ctx: Ctx, db: Db, keys: seq<Key>, lookup: int -> BrokerReply, now: Timestamp)
    requires Inv(ctx, db)
    ensures Inv(ctx, UpdateRun(ctx, db, keys, lookup, now).value)
    ensures Grows(db, UpdateRun(ctx, db, keys, lookup, now).value)
    decreases |keys|
  {
    if |keys| > 0 {
      UpdateStepKeeps(ctx, db, keys[0], lookup, now);
      var d := UpdateStep(ctx, db, keys[0], lookup, now).value;
      UpdateRunKeeps(ctx, d, keys[1..], lookup, now);
      GrowsTrans(db, d, UpdateRun(ctx, d, keys[1..], lookup, now).value);
    }
  }

  /** The poll keeps the invariant and only adds to the append-only stores. */
  lemma UpdateStatusKeeps(ctx: Ctx, db: Db, tokenOk: bool, cursor: seq<Key>, lookup: int -> BrokerReply, now: Timestamp)
    requires Inv(ctx, db)
    ensures Inv(ctx, UpdateStatusSpec(ctx, db, tokenOk, cursor, lookup, now))
    ensures Grows(db, UpdateStatusSpec(ctx, db, tokenOk, cursor, lookup, now))
  {
    if tokenOk {
      UpdateRunKeeps(ctx, db, cursor, lookup, now);
    }
  }

  // ---------------------------------------------------------------------
  // The trader loop

  /** One row of `trade_data`, with what its send would meet. */
  datatype Signal = Signal(data: TradeData, assetType: string, env: SendEnv)

  /** The strategy document `runTrader` finds: by name and account. */
  function FindStrategy(strategies: map<string, StrategyDoc>, name: string, accountId: string): (r: Option<StrategyDoc>)
    ensures r.Some? <==> name in strategies && strategies[name].accountId == accountId
    ensures r.Some? ==> r.value == strategies[name]
  {
    if name in strategies && strategies[name].accountId == accountId then Some(strategies[name]) else None
  }

  /** `{**row, **open_position}`: the position's fields win, and it brings
      the quantity, entry and size a close needs. */
  function Merge(td: TradeData, pos: Option<PositionDoc>): (r: TradeData)
    ensures pos.None? ==> r == td
    ensures pos.Some? ==> r.symbol == pos.value.symbol && r.strategy == pos.value.strategy
                          && r.holding == Some(Holding(pos.value.qty, pos.value.entry.price, pos.value.entry.date, pos.value.positionSize))
  {
    if pos.None? then td
    else
      var p := pos.value;
      var opt := p.option;
      td.(symbol := p.symbol, strategy := p.strategy,
          side := if p.side.Some? then p.side.value else td.side,
          preSymbol := if opt.Some? then Some(opt.value.preSymbol) else td.preSymbol,
          expDate := if opt.Some? then Some(opt.value.expDate) else td.expDate,
          optionType := if opt.Some? then Some(opt.value.optionType) else td.optionType,
          holding := Some(Holding(p.qty, p.entry.price, p.entry.date, p.positionSize)))
  }

  /** The strategies once `runTrader` has made sure the row's strategy
      exists: unchanged when it is found, else after `addNewStrategy`. */
  function EnsureStrategy(ctx: Ctx, strategies: map<string, StrategyDoc>, row: Signal): map<string, StrategyDoc>
  {
    if FindStrategy(strategies, row.data.strategy, ctx.accountId).Some? then strategies
    else ApiTasks.AddStrategy(strategies, row.data.strategy, row.assetType, ctx.accountId)
  }

  /** This account's open position at the row's key, if any. */
  function RowPosition(ctx: Ctx, w: World, row: Signal): Option<PositionDoc>
  {
    var key := KeyOf(ctx, row.data.symbol, row.data.strategy);
    if key in w.db.open && w.db.open[key].accountId == ctx.accountId then Some(w.db.open[key]) else None
  }

  /** The direction `runTrader` sends for a row: none when the strategy is
      missing or the key is already queued, else what `Decide` picks. */
  function RowDecision(ctx: Ctx, w: World, row: Signal, forbidden: set<string>): Option<Direction>
  {
    var td := row.data;
    var key := KeyOf(ctx, td.symbol, td.strategy);
    var strat := FindStrategy(EnsureStrategy(ctx, w.db.strategies, row), td.strategy, ctx.accountId);
    if strat.None? || (key in w.db.queue && w.db.queue[key].accountId == ctx.accountId) then None
    else Decide(td.side, strat.value.positionType, RowPosition(ctx, w, row).Some?, td.symbol in forbidden)
  }

  /** One row of `runTrader`. It stops the run when the strategy cannot be
      found even after `addNewStrategy` (a strategy of that name belongs to
      another account). A row with no decision changes nothing but the
      strategies; a row that queues a new key queues the decided direction. */
  function RowStep(ctx: Ctx, w: World, row: Signal, forbidden: set<string>): (r: Run<World>)
    ensures r.value.db.strategies == EnsureStrategy(ctx, w.db.strategies, row)
    ensures r.Stopped? <==> FindStrategy(EnsureStrategy(ctx, w.db.strategies, row), row.data.strategy, ctx.accountId).None?
    ensures RowDecision(ctx, w, row, forbidden).None? ==>
              r.value.builder == w.builder && r.value.db == w.db.(strategies := r.value.db.strategies)
    ensures forall k :: k in r.value.db.queue && k !in w.db.queue ==>
              RowDecision(ctx, w, row, forbidden) == Some(r.value.db.queue[k].direction)
    ensures RowDecision(ctx, w, row, forbidden).Some? ==>
              var strategies := EnsureStrategy(ctx, w.db.strategies, row);
              var strat := FindStrategy(strategies, row.data.strategy, ctx.accountId);
              strat.Some? &&
              r == Running(SendSpec(ctx, World(w.db.(strategies := strategies), w.builder),
                                    Merge(row.data, RowPosition(ctx, w, row)), strat.value,
                                    RowDecision(ctx, w, row, forbidden).value, row.env).world)
  {
    var td := row.data;
    var strategies := EnsureStrategy(ctx, w.db.strategies, row);
    var w1 := World(w.db.(strategies := strategies), w.builder);
    var strat := FindStrategy(strategies, td.strategy, ctx.accountId);
    var dir := RowDecision(ctx, w, row, forbidden);
    if strat.None? then Stopped(w1)
    else if dir.None? then Running(w1)
    else
      var pos := RowPosition(ctx, w, row);
      var sent := SendSpec(ctx, w1, Merge(td, pos), strat.value, dir.value, row.env);
      SendTouches(ctx, w1, Merge(td, pos), strat.value, dir.value, row.env);
      Running(sent.world)
  }

  /** A row whose key is already queued sends nothing: at most its strategy
      is added, and the builder is not touched. */
  lemma QueuedRowSendsNothing(ctx: Ctx, w: World, row: Signal, forbidden: set<string>)
    requires var key := KeyOf(ctx, row.data.symbol, row.data.strategy);
             key in w.db.queue && w.db.queue[key].accountId == ctx.accountId
    ensures var r := RowStep(ctx, w, row, forbidden).value;
            r.builder == w.builder && r.db == w.db.(strategies := r.db.strategies)
  {
  }

  lemma RowStepKeeps(ctx: Ctx, w: World, row: Signal, forbidden: set<string>)
    requires Inv(ctx, w.db)
    ensures Inv(ctx, RowStep(ctx, w, row, forbidden).value.db)
    ensures Grows(w.db, RowStep(ctx, w, row, forbidden).value.db)
  {
    var td := row.data;
    var key := KeyOf(ctx, td.symbol, td.strategy);
    var strategies := EnsureStrategy(ctx, w.db.strategies, row);
    var w1 := World(w.db.(strategies := strategies), w.builder);
    var strat := FindStrategy(strategies, td.strategy, ctx.accountId);
    if strat.Some? {
      var pos := RowPosition(ctx, w, row);
      var dir := RowDecision(ctx, w, row, forbidden);
      if dir.Some? {
        var merged := Merge(td, pos);
        assert KeyOf(ctx, merged.symbol, merged.strategy) == key;
        assert pos.Some? <==> key in w1.db.open;
        SendKeepsInv(ctx, w1, merged, strat.value, dir.value, row.env);
        SendTouches(ctx, w1, merged, strat.value, dir.value, row.env);
      }
    }
  }

  /** The rows in order, stopping at the first exception. */
  function RowsRun(ctx: Ctx, w: World, rows: seq<Signal>, forbidden: set<string>): Run<World>
    decreases |rows|
  {
    if |rows| == 0 then Running(w)
    else
      match RowStep(ctx, w, rows[0], forbidden)
      case Stopped(v) => Stopped(v)
      case Running(v) => RowsRun(ctx, v, rows[1..], forbidden)
  }

  lemma {:induction false} RowsRunKeeps(ctx: Ctx, w: World, rows: seq<Signal>, forbidden: set<string>)
    requires Inv(ctx, w.db)
    ensures Inv(ctx, RowsRun(ctx, w, rows, forbidden).value.db)
    ensures Grows(w.db, RowsRun(ctx, w, rows, forbidden).value.db)
    decreases |rows|
  {
    if |rows| > 0 {
      RowStepKeeps(ctx, w, rows[0], forbidden);
      var v := RowStep(ctx, w, rows[0], forbidden).value;
      RowsRunKeeps(ctx, v, rows[1..], forbidden);
      GrowsTrans(w.db, v.db, RowsRun(ctx, v, rows[1..], forbidden).value.db);
    }
  }

  /** What one `runTrader` call meets besides its rows: the token checks of
      the call and of its poll, the queue cursor, the broker's orders and
      the clock. */
  datatype Poll = Poll(tokenOk: bool, updateTokenOk: bool, cursor: seq<Key>, lookup: int -> BrokerReply, now: Timestamp)

  /** `runTrader`: the token check, the poll, then the rows. */
  function RunTraderSpec(ctx: Ctx, w: World, poll: Poll, rows: seq<Signal>, forbidden: set<string>): (r: World)
    ensures !poll.tokenOk ==> r == w
  {
    if !poll.tokenOk then w
    else
      var polled := UpdateStatusSpec(ctx, w.db, poll.updateTokenOk, poll.cursor, poll.lookup, poll.now);
      RowsRun(ctx, World(polled, w.builder), rows, forbidden).value
  }

  /** A trader run keeps the invariant and never removes a closed, rejected
      or canceled record. */
  lemma RunTraderKeeps(ctx: Ctx, w: World, poll: Poll, rows: seq<Signal>, forbidden: set<string>)
    requires Inv(ctx, w.db)
    ensures Inv(ctx, RunTraderSpec(ctx, w, poll, rows, forbidden).db)
    ensures Grows(w.db, RunTraderSpec(ctx, w, poll, rows, forbidden).db)
  {
    if poll.tokenOk {
      UpdateStatusKeeps(ctx, w.db, poll.updateTokenOk, poll.cursor, poll.lookup, poll.now);
      var polled := UpdateStatusSpec(ctx, w.db, poll.updateTokenOk, poll.cursor, poll.lookup, poll.now);
      RowsRunKeeps(ctx, World(polled, w.builder), rows, forbidden);
      GrowsTrans(w.db, polled, RunTraderSpec(ctx, w, poll, rows, forbidden).db);
    }
  }

  // ---------------------------------------------------------------------
  // OCO triggers

  /** `$set childOrderStrategies.<id>.Order_Status` on the position under
      key, when it is there and has that child. */
  function SetChildStatus(open: map<Key, PositionDoc>, key: Key, id: int, status: string): (r: map<Key, PositionDoc>)
    ensures r.Keys == open.Keys
    ensures forall k :: k in open && k != key ==> r[k] == open[k]
    ensures key in open ==> r[key] == open[key].(children := r[key].children)
  {
    if key in open && open[key].children.Some? && OrderedDict.Get(open[key].children.value, id).Some? then
      var cs := open[key].children.value;
      var child := OrderedDict.Get(cs, id).value;
      open[key := open[key].(children := Some(OrderedDict.Put(cs, id, child.(status := status))))]
    else open
  }

  /** One child id of an OCO position in `checkOCOtriggers`. A missing
      reply or status raises and ends the whole task. */
  function ChildStep(ctx: Ctx, db: Db, key: Key, pos: PositionDoc, id: int, lookup: int -> BrokerReply, now: Timestamp)
    : (r: Run<Db>)
    ensures lookup(id).NotFound? || lookup(id).order.status.None? ==> r == Stopped(db)
    ensures lookup(id).Found? && lookup(id).order.status == Some("FILLED") ==>
              r == Running(if FromPosition(pos).None? then db
                           else PushSpec(ctx, db, FromPosition(pos).value, Reply(lookup(id).order), Reliable, now))
    ensures lookup(id).Found? && lookup(id).order.status == Some("CANCELED") ==>
              r == Running(db.(canceled := db.canceled + [AuditOf(ctx, pos.symbol, pos.strategy, pos.orderType, "CANCELED", now)]))
    ensures lookup(id).Found? && lookup(id).order.status == Some("REJECTED") ==>
              r == Running(db.(rejected := db.rejected + [AuditOf(ctx, pos.symbol, pos.strategy, pos.orderType, "REJECTED", now)]))
    ensures lookup(id).Found? && lookup(id).order.status.Some? &&
            lookup(id).order.status.value !in {"FILLED", "CANCELED", "REJECTED"} ==>
              r == Running(db.(open := SetChildStatus(db.open, key, id, lookup(id).order.status.value)))
  {
    match lookup(id)
    case NotFound => Stopped(db)
    case Found(o) =>
      if o.status.None? then Stopped(db)
      else
        var status := o.status.value;
        if status == "FILLED" then
          var src := FromPosition(pos);
          Running(if src.None? then db else PushSpec(ctx, db, src.value, Reply(o), Reliable, now))
        else if status == "CANCELED" || status == "REJECTED" then
          var audit := AuditOf(ctx, pos.symbol, pos.strategy, pos.orderType, status, now);
          if status == "REJECTED" then Running(db.(rejected := db.rejected + [audit]))
          else Running(db.(canceled := db.canceled + [audit]))
        else Running(db.(open := SetChildStatus(db.open, key, id, status)))
  }

  /** The child ids of one position, in the order of its dict. */
  function ChildRun(ctx: Ctx, db: Db, key: Key, pos: PositionDoc, ids: seq<int>, lookup: int -> BrokerReply, now: Timestamp)
    : Run<Db>
    decreases |ids|
  {
    if |ids| == 0 then Running(db)
    else
      match ChildStep(ctx, db, key, pos, ids[0], lookup, now)
      case Stopped(d) => Stopped(d)
      case Running(d) => ChildRun(ctx, d, key, pos, ids[1..], lookup, now)
  }

  /** One position of the cursor: only OCO positions are visited, and one
      without childOrderStrategies raises. */
  function OcoStep(ctx: Ctx, db: Db, key: Key, lookup: int -> BrokerReply, now: Timestamp): (r: Run<Db>)
    ensures key !in db.open || db.open[key].orderType != Oco ==> r == Running(db)
    ensures key in db.open && db.open[key].orderType == Oco && db.open[key].children.None? ==> r == Stopped(db)
  {
    if key !in db.open || db.open[key].orderType != Oco then Running(db)
    else
      var pos := db.open[key];
      if pos.children.None? then Stopped(db)
      else ChildRun(ctx, db, key, pos, OrderedDict.Keys(pos.children.value), lookup, now)
  }

  function OcoRun(ctx: Ctx, db: Db, keys: seq<Key>, lookup: int -> BrokerReply, now: Timestamp): Run<Db>
    decreases |keys|
  {
    if |keys| == 0 then Running(db)
    else
      match OcoStep(ctx, db, keys[0], lookup, now)
      case Stopped(d) => Stopped(d)
      case Running(d) => OcoRun(ctx, d, keys[1..], lookup, now)
  }

  /** `checkOCOtriggers` over the cursor of this trader's positions. */
  function CheckOcoSpec(ctx: Ctx, db: Db, cursor: seq<Key>, lookup: int -> BrokerReply, now: Timestamp): Db
  {
    OcoRun(ctx, db, cursor, lookup, now).value
  }

  lemma ChildStepKeeps(ctx: Ctx, db: Db, key: Key, pos: PositionDoc, id: int, lookup: int -> BrokerReply, now: Timestamp)
    requires Inv(ctx, db) && pos.accountId == ctx.accountId
    ensures Inv(ctx, ChildStep(ctx, db, key, pos, id, lookup, now).value)
    ensures Grows(db, ChildStep(ctx, db, key, pos, id, lookup, now).value)
  {
    var src := FromPosition(pos);
    if lookup(id).Found? && lookup(id).order.status.Some? {
      var status := lookup(id).order.status.value;
      if status == "FILLED" {
        if src.Some? {
          PushKeepsInv(ctx, db, src.value, Reply(lookup(id).order), Reliable, now);
          PushResolves(ctx, db, src.value, Reply(lookup(id).order), Reliable, now);
        }
      } else if status != "CANCELED" && status != "REJECTED" {
        KeyedChildStatus(ctx, db.queue, db.open, key, id, status);
      }
    }
  }

  lemma KeyedChildStatus(ctx: Ctx, queue: map<Key, QueueEntry>, open: map<Key, PositionDoc>, key: Key, id: int, status: string)
    requires Keyed(ctx, queue, open)
    ensures Keyed(ctx, queue, SetChildStatus(open, key, id, status))
  {
  }

  lemma {:induction false} ChildRunKeeps(ctx: Ctx, db: Db, key: Key, pos: PositionDoc, ids: seq<int>,
                                         lookup: int -> BrokerReply, now: Timestamp)
    requires Inv(ctx, db) && pos.accountId == ctx.accountId
    ensures Inv(ctx, ChildRun(ctx, db, key, pos, ids, lookup, now).value)
    ensures Grows(db, ChildRun(ctx, db, key, pos, ids, lookup, now).value)
    decreases |ids|
  {
    if |ids| > 0 {
      ChildStepKeeps(ctx, db, key, pos, ids[0], lookup, now);
      var d := ChildStep(ctx, db, key, pos, ids[0], lookup, now).value;
      ChildRunKeeps(ctx, d, key, pos, ids[1..], lookup, now);
      GrowsTrans(db, d, ChildRun(ctx, d, key, pos, ids[1..], lookup, now).value);
    }
  }

  lemma {:induction false} OcoRunKeeps(ctx: Ctx, db: Db, keys: seq<Key>, lookup: int -> BrokerReply, now: Timestamp)
    requires Inv(ctx, db)
    ensures Inv(ctx, OcoRun(ctx, db, keys, lookup, now).value)
    ensures Grows(db, OcoRun(ctx, db, keys, lookup, now).value)
    decreases |keys|
  {
    if |keys| > 0 {
      var key := keys[0];
      if key in db.open && db.open[key].orderType == Oco && db.open[key].children.Some? {
        var pos := db.open[key];
        ChildRunKeeps(ctx, db, key, pos, OrderedDict.Keys(pos.children.value), lookup, now);
      }
      var d := OcoStep(ctx, db, key, lookup, now).value;
      OcoRunKeeps(ctx, d, keys[1..], lookup, now);
      GrowsTrans(db, d, OcoRun(ctx, d, keys[1..], lookup, now).value);
    }
  }

  /** The OCO task keeps the invariant and only adds records. */
  lemma CheckOcoKeeps(ctx: Ctx, db: Db, cursor: seq<Key>, lookup: int -> BrokerReply, now: Timestamp)
    requires Inv(ctx, db)
    ensures Inv(ctx, CheckOcoSpec(ctx, db, cursor, lookup, now))
    ensures Grows(db, CheckOcoSpec(ctx, db, cursor, lookup, now))
  {
    OcoRunKeeps(ctx, db, cursor, lookup, now);
  }
}
