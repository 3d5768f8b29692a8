/** The engine object: one trader and account's view of the collections,
    with the order builder it places orders through. Each method is proved
    to leave the collections (and the builder) exactly as the matching
    function of module Lifecycle says. */
module Engine {
  import opened Wrappers
  import opened Records
  import opened OrderBuilding
  import opened Lifecycle
  import ApiTasks
  import OrderedDict

  class ApiTrader {
    const ctx: Ctx
    const builder: OrderBuilder
    var queue: map<Key, QueueEntry>
    var open: map<Key, PositionDoc>
    var closed: seq<ClosedDoc>
    var rejected: seq<Audit>
    var canceled: seq<Audit>
    var strategies: map<string, StrategyDoc>

    function Snapshot(): Db
      reads this
    {
      Db(queue, open, closed, rejected, canceled, strategies)
    }

    function Current(): World
      reads this, builder
    {
      World(Snapshot(), builder.State())
    }

    /** The builder was made with this engine's formatter and factors. */
    ghost predicate Wired()
    {
      builder.format == ctx.format && builder.takeProfit == ctx.takeProfit && builder.stopLoss == ctx.stopLoss
    }

    constructor (ctx: Ctx, db: Db)
      ensures this.ctx == ctx && Snapshot() == db && Wired()
      ensures builder.State() == BuilderState(InitialOrder, InitialDraft) && fresh(builder)
    {
      this.ctx := ctx;
      builder := new OrderBuilder(ctx.format, ctx.takeProfit, ctx.stopLoss);
      queue := db.queue;
      open := db.open;
      closed := db.closed;
      rejected := db.rejected;
      canceled := db.canceled;
      strategies := db.strategies;
    }

    /** `queueOrder` */
    method QueueOrder(e: QueueEntry)
      modifies this
      ensures Snapshot() == QueueSpec(ctx, old(Snapshot()), e)
    {
      var key := KeyOf(ctx, e.symbol, e.strategy);
      if key in queue {
        queue := queue[key := SetOnto(queue[key], e)];
      } else {
        queue := queue[key := e];
      }
    }

    /** `sendOrder` */
    method SendOrder(td: TradeData, strat: StrategyDoc, dir: Direction, env: SendEnv) returns (outcome: SendOutcome)
      requires Wired()
      modifies this, builder
      ensures Sent(Current(), outcome) == SendSpec(ctx, old(Current()), td, strat, dir, env)
    {
      if !env.tokenOk {
        return TokenInvalid;
      }
      var built: BuildOutcome;
      match strat.orderType {
        case Standard =>
          built := builder.StandardOrder(td, strat, dir, false, env.quote, env.now);
        case Oco =>
          built := builder.OCOOrder(td, strat, dir, env.quote, env.now);
        case OtherOrderType(_) =>
          return UnknownOrderType;
      }
      if built != Built {
        return NotBuilt;
      }
      outcome := Place(td, env);
    }

    /** `sendOrder` after a successful build. */
    method Place(td: TradeData, env: SendEnv) returns (outcome: SendOutcome)
      requires Complete(builder.obj)
      modifies this, builder
      ensures Sent(Current(), outcome) == PlaceSpec(ctx, old(Snapshot()), old(builder.State()), td, env)
    {
      var id: int;
      if ctx.mode == Live {
        if env.status != 200 && env.status != 201 {
          rejected := rejected + [RejectionOf(ctx, td, env.now)];
          return Rejected;
        }
        if env.location.None? {
          return NoOrderId;
        }
        var parsed := LocationOrderId(env.location.value);
        if parsed.None? {
          return NoOrderId;
        }
        id := parsed.value;
      } else {
        id := -(env.draw as int);
      }
      builder.obj := builder.obj.(orderId := Some(id), mode := Some(ctx.mode), status := Some("QUEUED"));
      QueueOrder(EntryOf(ctx, builder.obj));
      return Queued(id);
    }

    /** `pushOrder` */
    method PushOrder(src: PushSource, reply: FillReply, integrity: Integrity, now: Timestamp)
      modifies this
      ensures Snapshot() == PushSpec(ctx, old(Snapshot()), src, reply, integrity, now)
    {
      var fill := FillOf(src.qty, reply);
      if fill.None? || (src.assetType == "OPTION" && src.option.None?) {
        return;
      }
      var price := Numeric.FillPrice(fill.value.0);
      var key := KeyOf(ctx, src.symbol, src.strategy);
      match src.direction {
        case OpenPosition =>
          open := open[key := PositionOf(src, integrity, fill.value.1, Stamp(price, now))];
        case ClosePosition =>
          if key !in open {
            return;
          }
          var pos := open[key];
          open := open - {key};
          closed := closed + [ClosedDoc(PositionOf(src, integrity, pos.qty, pos.entry), Stamp(price, now))];
      }
      queue := Dequeue(ctx, queue, key);
    }

    /** The body of `updateStatus`'s loop for one queue entry; true when it
        raised. */
    method PollEntry(k: Key, lookup: int -> BrokerReply, now: Timestamp) returns (stopped: bool)
      modifies this
      ensures (if stopped then Stopped(Snapshot()) else Running(Snapshot())) == UpdateStep(ctx, old(Snapshot()), k, lookup, now)
    {
      if !(k in queue && queue[k].orderId.Some? && queue[k].accountId == ctx.accountId) {
        return false;
      }
      var e := queue[k];
      var id := e.orderId.value;
      var reply := lookup(id);
      if reply.NotFound? {
        var integrity := if ctx.mode == Live then Assumed else Reliable;
        if e.direction == OpenPosition {
          PushOrder(FromEntry(e), Custom(e.entry.price), integrity, now);
        } else if e.exit.None? {
          return true;
        } else {
          PushOrder(FromEntry(e), Custom(e.exit.value.price), integrity, now);
        }
        return false;
      }
      var o := reply.order;
      if o.orderId != Some(id) {
        return false;
      }
      if o.status == Some("FILLED") {
        if e.orderType == Oco && ApiTasks.ExtractOCOChildren(o).None? {
          return true;
        }
        PushOrder(FromEntry(e), Reply(o), Reliable, now);
      } else if o.status == Some("CANCELED") || o.status == Some("REJECTED") {
        queue := queue - {k};
        var audit := AuditOf(ctx, e.symbol, e.strategy, e.orderType, o.status.value, now);
        if o.status == Some("REJECTED") {
          rejected := rejected + [audit];
        } else {
          canceled := canceled + [audit];
        }
      } else {
        queue := queue[k := e.(status := o.status)];
      }
      return false;
    }

    /** `updateStatus` */
    method UpdateStatus(tokenOk: bool, cursor: seq<Key>, lookup: int -> BrokerReply, now: Timestamp)
      modifies this
      ensures Snapshot() == UpdateStatusSpec(ctx, old(Snapshot()), tokenOk, cursor, lookup, now)
    {
      if !tokenOk {
        return;
      }
      ghost var target := UpdateRun(ctx, Snapshot(), cursor, lookup, now);
      var i := 0;
      var stopped := false;
      while i < |cursor| && !stopped
        invariant 0 <= i <= |cursor|
        invariant target == if stopped then Stopped(Snapshot()) else UpdateRun(ctx, Snapshot(), cursor[i..], lookup, now)
      {
        assert cursor[i..][1..] == cursor[i + 1..];
        stopped := PollEntry(cursor[i], lookup, now);
        i := i + 1;
      }
    }

    /** `addNewStrategy` */
    method AddNewStrategy(name: string, assetType: string)
      modifies this
      ensures Snapshot() == old(Snapshot()).(strategies := ApiTasks.AddStrategy(old(strategies), name, assetType, ctx.accountId))
    {
      if name !in strategies {
        strategies := strategies[name := ApiTasks.NewStrategy(name, assetType, ctx.accountId)];
      }
    }

    /** The engine's own `updateAccountBalance`, at 100 percent of the
        liquidation value; fetching that value is outside the model. */
    method UpdateAccountBalance(liquidation: Option<real>)
      modifies this
      ensures Snapshot() == old(Snapshot()).(strategies := ApiTasks.Rebalance(old(strategies), ctx.accountId, liquidation, 100))
    {
      if liquidation.None? {
        return;
      }
      var size := ApiTasks.PositionSizeFor(liquidation.value, 100);
      strategies := map n | n in strategies ::
        if strategies[n].accountId == ctx.accountId then strategies[n].(positionSize := size) else strategies[n];
    }

    /** The body of `runTrader`'s loop for one row; true when it raised. */
    method TradeRow(row: Signal, forbidden: set<string>) returns (stopped: bool)
      requires Wired()
      modifies this, builder
      ensures (if stopped then Stopped(Current()) else Running(Current())) == RowStep(ctx, old(Current()), row, forbidden)
    {
      var td := row.data;
      var key := KeyOf(ctx, td.symbol, td.strategy);
      var openPosition := if key in open && open[key].accountId == ctx.accountId then Some(open[key]) else None;
      var queued := key in queue && queue[key].accountId == ctx.accountId;
      var strat := FindStrategy(strategies, td.strategy, ctx.accountId);
      if strat.None? {
        AddNewStrategy(td.strategy, row.assetType);
        strat := FindStrategy(strategies, td.strategy, ctx.accountId);
      }
      if strat.None? {
        return true;
      }
      if queued {
        return false;
      }
      var dir := Decide(td.side, strat.value.positionType, openPosition.Some?, td.symbol in forbidden);
      if dir.Some? {
        var _ := SendOrder(Merge(td, openPosition), strat.value, dir.value, row.env);
      }
      return false;
    }

    /** `runTrader` */
    method RunTrader(poll: Poll, rows: seq<Signal>, forbidden: set<string>)
      requires Wired()
      modifies this, builder
      ensures Current() == RunTraderSpec(ctx, old(Current()), poll, rows, forbidden)
      ensures Inv(ctx, old(Snapshot())) ==> Inv(ctx, Snapshot()) && Grows(old(Snapshot()), Snapshot())
    {
      ghost var start := Current();
      if !poll.tokenOk {
        return;
      }
      UpdateStatus(poll.updateTokenOk, poll.cursor, poll.lookup, poll.now);
      ghost var target := RowsRun(ctx, Current(), rows, forbidden);
      assert target.value == RunTraderSpec(ctx, start, poll, rows, forbidden);
      var i := 0;
      var stopped := false;
      while i < |rows| && !stopped
        invariant 0 <= i <= |rows|
        invariant Wired()
        invariant target == if stopped then Stopped(Current()) else RowsRun(ctx, Current(), rows[i..], forbidden)
      {
        assert rows[i..][1..] == rows[i + 1..];
        stopped := TradeRow(rows[i], forbidden);
        i := i + 1;
      }
      if Inv(ctx, start.db) {
        RunTraderKeeps(ctx, start, poll, rows, forbidden);
      }
    }

    /** The body of `checkOCOtriggers`' inner loop for one child id; true
        when it raised. */
    method CheckChild(key: Key, pos: PositionDoc, id: int, lookup: int -> BrokerReply, now: Timestamp) returns (stopped: bool)
      modifies this
      ensures (if stopped then Stopped(Snapshot()) else Running(Snapshot())) == ChildStep(ctx, old(Snapshot()), key, pos, id, lookup, now)
    {
      var reply := lookup(id);
      if reply.NotFound? || reply.order.status.None? {
        return true;
      }
      var status := reply.order.status.value;
      if status == "FILLED" {
        var src := FromPosition(pos);
        if src.Some? {
          PushOrder(src.value, Reply(reply.order), Reliable, now);
        }
      } else if status == "CANCELED" || status == "REJECTED" {
        var audit := AuditOf(ctx, pos.symbol, pos.strategy, pos.orderType, status, now);
        if status == "REJECTED" {
          rejected := rejected + [audit];
        } else {
          canceled := canceled + [audit];
        }
      } else {
        open := SetChildStatus(open, key, id, status);
      }
      return false;
    }

    /** One position of `checkOCOtriggers`' cursor; true when it raised. */
    method CheckPosition(key: Key, lookup: int -> BrokerReply, now: Timestamp) returns (stopped: bool)
      modifies this
      ensures (if stopped then Stopped(Snapshot()) else Running(Snapshot())) == OcoStep(ctx, old(Snapshot()), key, lookup, now)
    {
      if key !in open || open[key].orderType != Oco {
        return false;
      }
      var pos := open[key];
      if pos.children.None? {
        return true;
      }
      var ids := OrderedDict.Keys(pos.children.value);
      ghost var target := ChildRun(ctx, Snapshot(), key, pos, ids, lookup, now);
      var j := 0;
      stopped := false;
      while j < |ids| && !stopped
        invariant 0 <= j <= |ids|
        invariant target == if stopped then Stopped(Snapshot()) else ChildRun(ctx, Snapshot(), key, pos, ids[j..], lookup, now)
      {
        assert ids[j..][1..] == ids[j + 1..];
        stopped := CheckChild(key, pos, ids[j], lookup, now);
        j := j + 1;
      }
    }

    /** `checkOCOtriggers` */
    method CheckOCOTriggers(cursor: seq<Key>, lookup: int -> BrokerReply, now: Timestamp)
      modifies this
      ensures Snapshot() == CheckOcoSpec(ctx, old(Snapshot()), cursor, lookup, now)
      ensures Inv(ctx, old(Snapshot())) ==> Inv(ctx, Snapshot()) && Grows(old(Snapshot()), Snapshot())
    {
      ghost var start := Snapshot();
      ghost var target := OcoRun(ctx, start, cursor, lookup, now);
      var i := 0;
      var stopped := false;
      while i < |cursor| && !stopped
        invariant 0 <= i <= |cursor|
        invariant target == if stopped then Stopped(Snapshot()) else OcoRun(ctx, Snapshot(), cursor[i..], lookup, now)
      {
        assert cursor[i..][1..] == cursor[i + 1..];
        stopped := CheckPosition(cursor[i], lookup, now);
        i := i + 1;
      }
      if Inv(ctx, start) {
        CheckOcoKeeps(ctx, start, cursor, lookup, now);
      }
    }
  }
}
