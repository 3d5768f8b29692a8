/** The legacy background tasks of one trader and account: the sleep rule,
    the stale-order sweep, the once-a-day history records, the option
    expiry sell-off, the strategy stub and the once-per-minute latches of
    the task loop. */
module LegacyTasks {
  import opened Wrappers
  import opened Text

  // ---------------------------------------------------------------------
  // The sleep rule

  predicate Weekend(day: string)
  {
    day == "Sat" || day == "Sun"
  }

  /** `selectSleep`: 60 seconds at night ("HH:MM:SS" above "20:00" or below
      "04:00", compared as strings) and at weekends, 5 otherwise. */
  function SelectSleep(day: string, tm: string): (secs: int)
    ensures secs == 60 || secs == 5
    ensures secs == 60 <==> LexLess("20:00", tm) || LexLess(tm, "04:00") || Weekend(day)
  {
    if LexLess("20:00", tm) || LexLess(tm, "04:00") || Weekend(day) then 60 else 5
  }

  function TwoDigits(n: nat): (s: string)
    requires n < 100
    ensures |s| == 2 && AllDigits(s)
  {
    [DigitChar(n / 10), DigitChar(n % 10)]
  }

  /** `strftime("%H:%M:%S")` */
  function ClockString(h: nat, m: nat, s: nat): (t: string)
    requires h < 24 && m < 60 && s < 60
    ensures |t| == 8
  {
    TwoDigits(h) + ":" + TwoDigits(m) + ":" + TwoDigits(s)
  }

  /** As a clock reading, "above 20:00" means from 20:00:00 on (the
      eight-character time is longer than the five-character bound). */
  lemma LateByHour(h: nat, m: nat, s: nat)
    requires h < 24 && m < 60 && s < 60
    ensures LexLess("20:00", ClockString(h, m, s)) <==> h >= 20
  {
    var t := ClockString(h, m, s);
    assert t[0] == DigitChar(h / 10) && t[1] == DigitChar(h % 10) && t[2] == ':';
    assert t[3] == DigitChar(m / 10) && t[4] == DigitChar(m % 10) && t[5] == ':';
    assert t[1..][1..] == t[2..] && t[2..][1..] == t[3..] && t[3..][1..] == t[4..] && t[4..][1..] == t[5..];
    if h / 10 == 2 && h % 10 == 0 {
      assert LexLess("20:00", t) == LexLess("0:00", t[1..]);
      assert LexLess("0:00", t[1..]) == LexLess(":00", t[2..]);
      assert LexLess(":00", t[2..]) == LexLess("00", t[3..]);
      if m / 10 == 0 {
        assert LexLess("00", t[3..]) == LexLess("0", t[4..]);
        if m % 10 == 0 {
          assert LexLess("0", t[4..]) == LexLess("", t[5..]);
        }
      }
    }
  }

  /** As a clock reading, "below 04:00" means before 04:00:00. */
  lemma EarlyByHour(h: nat, m: nat, s: nat)
    requires h < 24 && m < 60 && s < 60
    ensures LexLess(ClockString(h, m, s), "04:00") <==> h < 4
  {
    var t := ClockString(h, m, s);
    assert t[0] == DigitChar(h / 10) && t[1] == DigitChar(h % 10) && t[2] == ':';
    if h / 10 == 0 {
      assert t[1..][1..] == t[2..];
      if h % 10 == 4 {
        assert LexLess(t, "04:00") == LexLess(t[1..], "4:00");
        assert LexLess(t[1..], "4:00") == LexLess(t[2..], ":00");
        assert t[2..][1..] == t[3..];
        assert LexLess(t[2..], ":00") == LexLess(t[3..], "00");
        assert t[3] == DigitChar(m / 10) && t[4] == DigitChar(m % 10);
        assert t[3..][1..] == t[4..];
        assert t[4..][1..] == t[5..];
        if m / 10 == 0 {
          assert LexLess(t[3..], "00") == LexLess(t[4..], "0");
          if m % 10 == 0 {
            assert LexLess(t[4..], "0") == LexLess(t[5..], "");
          }
        }
      }
    }
  }

  /** The short sleep covers exactly weekdays from 04:00:00 to 19:59:59. */
  lemma ShortSleepWindow(day: string, h: nat, m: nat, s: nat)
    requires h < 24 && m < 60 && s < 60
    ensures SelectSleep(day, ClockString(h, m, s)) == 5 <==> !Weekend(day) && 4 <= h < 20
  {
    LateByHour(h, m, s);
    EarlyByHour(h, m, s);
  }

  /** `getDatetimeSplit`: the "%Y-%m-%d %H:00" text split at its space into
      a stripped date and hour; anything but two parts raises. */
  function DatetimeSplit(stamp: string): (r: Option<(string, string)>)
    ensures r.Some? ==> ' ' !in r.value.0 && ' ' !in r.value.1
  {
    var parts := Split(stamp, ' ');
    if |parts| != 2 then None
    else
      StripSubword(parts[0]);
      StripSubword(parts[1]);
      Some((Strip(parts[0]), Strip(parts[1])))
  }

  lemma StripSubword(w: string)
    requires ' ' !in w
    ensures ' ' !in Strip(w)
  {
    var r := Strip(w);
    var l := StripLeft(w);
    assert r == StripRight(l);
    assert forall c :: c in r ==> c in l;
    assert forall c :: c in l ==> c in w;
  }

  /** Splitting a formatted date and hour gives them back. */
  lemma DatetimeSplitJoin(date: string, hour: string)
    requires ' ' !in date && ' ' !in hour
    requires |date| > 0 ==> !IsSpace(date[0]) && !IsSpace(date[|date| - 1])
    requires |hour| > 0 ==> !IsSpace(hour[0]) && !IsSpace(hour[|hour| - 1])
    ensures DatetimeSplit(date + " " + hour) == Some((date, hour))
  {
    SplitAppend(date, hour, ' ');
    SplitNoSep(date, ' ');
    SplitNoSep(hour, ' ');
    assert date + " " + hour == date + [' '] + hour;
    StripUnchanged(date);
    StripUnchanged(hour);
  }

  // ---------------------------------------------------------------------
  // The stale-order sweep

  /** A queue document as the sweep reads it. */
  datatype QueueDoc = QueueDoc(symbol: string, strategy: string, date: int, orderType: string,
                               orderId: Option<int>, status: string, accountId: string)

  /** An audit record of a cancellation. */
  datatype CancelRecord = CancelRecord(symbol: string, orderType: string, status: string, strategy: string,
                                       accountId: string, trader: string, date: int)

  /** The sweep's view of the stores: the queue keyed by (Symbol, Strategy),
      the audit store, and the alert list. */
  datatype Sweep = Sweep(queue: map<(string, string), QueueDoc>, other: seq<CancelRecord>, noIds: seq<string>)

  /** Older than two hours, a buy, placed, and still pending. */
  predicate ShouldCancel(now: int, o: QueueDoc)
  {
    now - 7200 > o.date && (o.orderType == "BUY" || o.orderType == "BUY_TO_OPEN")
    && o.orderId.Some? && o.status != "REJECTED" && o.status != "CANCELED" && o.status != "FILLED"
  }

  /** Older than ten minutes with no order id, in this account. */
  predicate MissingId(now: int, accountId: string, o: QueueDoc)
  {
    now - 600 > o.date && o.orderId.None? && o.accountId == accountId
  }

  predicate NoDups(s: seq<string>)
  {
    forall i, j :: 0 <= i < j < |s| ==> s[i] != s[j]
  }

  /** `list.remove(x)`: drop the first occurrence. */
  function RemoveFirst(s: seq<string>, x: string): (r: seq<string>)
    requires x in s
    ensures |r| == |s| - 1
    ensures forall y :: y in r ==> y in s
    ensures forall y :: y in s && y != x ==> y in r
    ensures NoDups(s) ==> NoDups(r) && x !in r
  {
    if s[0] == x then s[1..]
    else
      var rest := RemoveFirst(s[1..], x);
      assert NoDups(s) ==> s[0] !in s[1..];
      assert NoDups(s) ==> NoDups(s[1..]);
      [s[0]] + rest
  }

  /** One document of `killQueueOrder`: cancel when stale and the broker
      acknowledges (status 200 or 201), then the missing-id alert list. */
  function SweepStep(trader: string, accountId: string, st: Sweep, o: QueueDoc, now: int, cancelStatus: int -> int): (r: Sweep)
    ensures NoDups(st.noIds) ==> NoDups(r.noIds)
    ensures NoDups(st.noIds) ==> (o.symbol in r.noIds <==> MissingId(now, accountId, o))
    ensures forall y :: y != o.symbol ==> (y in r.noIds <==> y in st.noIds)
    ensures ShouldCancel(now, o) && cancelStatus(o.orderId.value) in {200, 201} ==>
              r.other == st.other + [CancelRecord(o.symbol, o.orderType, "CANCELED", o.strategy, accountId, trader, now)]
              && r.queue == st.queue - {(o.symbol, o.strategy)}
    ensures !(ShouldCancel(now, o) && cancelStatus(o.orderId.value) in {200, 201}) ==>
              r.other == st.other && r.queue == st.queue
  {
    var canceled :=
      if ShouldCancel(now, o) && cancelStatus(o.orderId.value) in {200, 201} then
        st.(other := st.other + [CancelRecord(o.symbol, o.orderType, "CANCELED", o.strategy, accountId, trader, now)],
            queue := st.queue - {(o.symbol, o.strategy)})
      else st;
    if MissingId(now, accountId, o) then
      if o.symbol in canceled.noIds then canceled
      else canceled.(noIds := canceled.noIds + [o.symbol])
    else if o.symbol in canceled.noIds then canceled.(noIds := RemoveFirst(canceled.noIds, o.symbol))
    else canceled
  }

  function SweepRun(trader: string, accountId: string, st: Sweep, orders: seq<QueueDoc>, now: int, cancelStatus: int -> int)
    : (r: Sweep)
    decreases |orders|
  {
    if |orders| == 0 then st
    else SweepRun(trader, accountId, SweepStep(trader, accountId, st, orders[0], now, cancelStatus), orders[1..], now, cancelStatus)
  }

  /** The sweep never puts a symbol on the alert list twice, and only ever
      adds audit records. */
  lemma {:induction false} SweepRunKeeps(trader: string, accountId: string, st: Sweep, orders: seq<QueueDoc>, now: int,
                                         cancelStatus: int -> int)
    requires NoDups(st.noIds)
    ensures var r := SweepRun(trader, accountId, st, orders, now, cancelStatus);
            NoDups(r.noIds) && st.other <= r.other && r.queue.Keys <= st.queue.Keys
    decreases |orders|
  {
    if |orders| > 0 {
      var next := SweepStep(trader, accountId, st, orders[0], now, cancelStatus);
      SweepRunKeeps(trader, accountId, next, orders[1..], now, cancelStatus);
    }
  }

  /** A document that does not qualify for cancellation is never removed by
      its own step. */
  lemma {:induction false} SweepKeepsLiveOrders(trader: string, accountId: string, st: Sweep, orders: seq<QueueDoc>, now: int,
                                                cancelStatus: int -> int, key: (string, string))
    requires key in st.queue
    requires forall i :: 0 <= i < |orders| && (orders[i].symbol, orders[i].strategy) == key ==> !ShouldCancel(now, orders[i])
    ensures key in SweepRun(trader, accountId, st, orders, now, cancelStatus).queue
    decreases |orders|
  {
    if |orders| > 0 {
      var next := SweepStep(trader, accountId, st, orders[0], now, cancelStatus);
      assert key in next.queue;
      SweepKeepsLiveOrders(trader, accountId, next, orders[1..], now, cancelStatus, key);
    }
  }

  // ---------------------------------------------------------------------
  // Once-a-day history records

  /** A balance or profit/loss record. */
  datatype DayRecord = DayRecord(trader: string, date: string, accountId: string, amount: real)

  predicate SameDay(a: DayRecord, trader: string, date: string, accountId: string)
  {
    a.trader == trader && a.date == date && a.accountId == accountId
  }

  /** At most one record per (Date, Trader, id_token). */
  predicate OnePerDay(h: seq<DayRecord>)
  {
    forall i, j :: 0 <= i < j < |h| ==> !SameDay(h[j], h[i].trader, h[i].date, h[i].accountId)
  }

  /** `find_one` then `insert_one` when nothing was found. */
  function RecordOnce(h: seq<DayRecord>, rec: DayRecord): (r: seq<DayRecord>)
    ensures OnePerDay(h) ==> OnePerDay(r)
    ensures exists i :: 0 <= i < |r| && SameDay(r[i], rec.trader, rec.date, rec.accountId)
    ensures h <= r && |r| <= |h| + 1
  {
    if exists i :: 0 <= i < |h| && SameDay(h[i], rec.trader, rec.date, rec.accountId) then h
    else
      assert (h + [rec])[|h|] == rec;
      h + [rec]
  }

  /** Recording twice on the same day is recording once. */
  lemma RecordOnceIdempotent(h: seq<DayRecord>, rec: DayRecord, later: real)
    ensures RecordOnce(RecordOnce(h, rec), rec.(amount := later)) == RecordOnce(h, rec)
  {
    var r := RecordOnce(h, rec);
    var i :| 0 <= i < |r| && SameDay(r[i], rec.trader, rec.date, rec.accountId);
    assert SameDay(r[i], rec.trader, rec.date, rec.accountId);
  }

  /** A closed position as the profit/loss tally reads it. */
  datatype ClosedTrade = ClosedTrade(trader: string, accountId: string, sellDate: string,
                                     buyPrice: real, sellPrice: real, qty: int)

  /** Sum of (sell * qty - buy * qty) over this trader's trades sold on `date`. */
  function ProfitLoss(trades: seq<ClosedTrade>, trader: string, accountId: string, date: string): real
  {
    if |trades| == 0 then 0.0
    else
      var t := trades[|trades| - 1];
      ProfitLoss(trades[..|trades| - 1], trader, accountId, date)
      + (if t.trader == trader && t.accountId == accountId && t.sellDate == date
         then t.sellPrice * t.qty as real - t.buyPrice * t.qty as real else 0.0)
  }

  /** The tally of two batches is the sum of their tallies. */
  lemma {:induction false} ProfitLossAppend(a: seq<ClosedTrade>, b: seq<ClosedTrade>, trader: string, accountId: string, date: string)
    ensures ProfitLoss(a + b, trader, accountId, date) == ProfitLoss(a, trader, accountId, date) + ProfitLoss(b, trader, accountId, date)
    decreases |b|
  {
    if |b| == 0 {
      assert a + b == a;
    } else {
      assert (a + b)[..|a + b| - 1] == a + b[..|b| - 1];
      assert (a + b)[|a + b| - 1] == b[|b| - 1];
      ProfitLossAppend(a, b[..|b| - 1], trader, accountId, date);
    }
  }

  /** Trades sold on another day, or by someone else, add nothing. */
  lemma {:induction false} ProfitLossOtherDays(trades: seq<ClosedTrade>, trader: string, accountId: string, date: string)
    requires forall i :: 0 <= i < |trades| ==> trades[i].sellDate != date
    ensures ProfitLoss(trades, trader, accountId, date) == 0.0
    decreases |trades|
  {
    if |trades| > 0 {
      ProfitLossOtherDays(trades[..|trades| - 1], trader, accountId, date);
    }
  }

  // ---------------------------------------------------------------------
  // Expiring options

  /** An open position as `sellOptionsAtExpiration` reads it; dates are day
      numbers. */
  datatype OptionPosition = OptionPosition(trader: string, symbol: string, preSymbol: string, optionType: string,
                                           strategy: string, assetType: string, expDay: int)

  /** The trade data handed to `placeOrder`. */
  datatype SellRequest = SellRequest(symbol: string, preSymbol: string, side: string, optionType: string,
                                     strategy: string, assetType: string, expDay: int)

  predicate Expiring(p: OptionPosition, trader: string, today: int)
  {
    p.trader == trader && p.assetType == "OPTION" && p.expDay - 1 == today
  }

  function SellRequestOf(p: OptionPosition): SellRequest
  {
    SellRequest(p.symbol, p.preSymbol, "SELL_TO_CLOSE", p.optionType, p.strategy, p.assetType, p.expDay)
  }

  /** The requests issued, in cursor order. */
  function ExpirationSells(positions: seq<OptionPosition>, trader: string, today: int): (r: seq<SellRequest>)
    ensures |r| <= |positions|
    ensures forall i :: 0 <= i < |r| ==> r[i].side == "SELL_TO_CLOSE" && r[i].expDay - 1 == today && r[i].assetType == "OPTION"
  {
    if |positions| == 0 then []
    else
      var rest := ExpirationSells(positions[..|positions| - 1], trader, today);
      var p := positions[|positions| - 1];
      if Expiring(p, trader, today) then rest + [SellRequestOf(p)] else rest
  }

  /** One request per option position of this trader whose expiry day is
      tomorrow, and no other. */
  lemma {:induction false} ExpirationSellsExactly(positions: seq<OptionPosition>, trader: string, today: int)
    ensures forall p :: p in positions && Expiring(p, trader, today) ==> SellRequestOf(p) in ExpirationSells(positions, trader, today)
    ensures forall q :: q in ExpirationSells(positions, trader, today) ==>
              exists p :: p in positions && Expiring(p, trader, today) && q == SellRequestOf(p)
    decreases |positions|
  {
    if |positions| > 0 {
      var front := positions[..|positions| - 1];
      ExpirationSellsExactly(front, trader, today);
      assert forall x :: x in positions ==> x in front || x == positions[|positions| - 1];
      assert forall x :: x in front ==> x in positions;
    }
  }

  // ---------------------------------------------------------------------
  // The user's strategy stubs

  datatype UserStrategy = UserStrategy(positionSize: int, active: bool)

  /** `updateStrategiesObject`: add {Position_Size: 1, Active: True} when
      the strategy is absent; an existing entry is left alone. */
  function AddStrategyStub(strategies: map<string, UserStrategy>, name: string): (r: map<string, UserStrategy>)
    ensures r.Keys == strategies.Keys + {name}
    ensures name in strategies ==> r == strategies
    ensures name !in strategies ==> r[name] == UserStrategy(1, true)
    ensures forall n :: n in strategies ==> r[n] == strategies[n]
  {
    if name in strategies then strategies else strategies[name := UserStrategy(1, true)]
  }

  // ---------------------------------------------------------------------
  // The minute latches of the task loop

  /** One loop pass for a latch: fire when the minute matches and the latch
      is down; the latch then follows the minute. */
  function Latch(latched: bool, atMinute: bool): (r: (bool, bool))
    ensures r.1 == atMinute
    ensures r.0 <==> atMinute && !latched
  {
    if atMinute then (!latched, true) else (false, false)
  }

  /** Which passes fire, for a run of passes given by whether each fell on
      the minute. */
  function Firings(latched: bool, minutes: seq<bool>): (r: seq<bool>)
    ensures |r| == |minutes|
    decreases |minutes|
  {
    if |minutes| == 0 then []
    else
      var step := Latch(latched, minutes[0]);
      [step.0] + Firings(step.1, minutes[1..])
  }

  /** A pass fires exactly when it is on the minute and the pass before was
      not, so a stretch of passes within the minute fires once, at its
      start. */
  lemma {:induction false} FiresAtStretchStart(latched: bool, minutes: seq<bool>, i: nat)
    requires i < |minutes|
    ensures Firings(latched, minutes)[i] <==> minutes[i] && (if i == 0 then !latched else !minutes[i - 1])
    decreases i
  {
    if i > 0 {
      FiresAtStretchStart(Latch(latched, minutes[0]).1, minutes[1..], i - 1);
    }
  }

  /** Between two firings some pass was off the minute. */
  lemma FiresOncePerStretch(latched: bool, minutes: seq<bool>, i: nat, j: nat)
    requires i < j < |minutes|
    requires Firings(latched, minutes)[i] && Firings(latched, minutes)[j]
    ensures exists k :: i < k < j && !minutes[k]
  {
    FiresAtStretchStart(latched, minutes, j);
    FiresAtStretchStart(latched, minutes, i);
    assert !minutes[j - 1];
    assert j - 1 != i;
  }

  // ---------------------------------------------------------------------
  // The task object

  class LegacyTasks {
    const trader: string
    const accountId: string
    var queue: map<(string, string), QueueDoc>
    var other: seq<CancelRecord>
    var noIds: seq<string>
    var balanceHistory: seq<DayRecord>
    var profitLossHistory: seq<DayRecord>
    var strategies: map<string, UserStrategy>
    var midnight: bool
    var checkOptions: bool

    function SweepState(): Sweep
      reads this
    {
      Sweep(queue, other, noIds)
    }

    /** The tasks over the host's existing collections: only the no-id list
        and the two latches start fresh. */
    constructor (trader: string, accountId: string, queue: map<(string, string), QueueDoc>, other: seq<CancelRecord>,
                 balanceHistory: seq<DayRecord>, profitLossHistory: seq<DayRecord>, strategies: map<string, UserStrategy>)
      ensures this.trader == trader && this.accountId == accountId
      ensures this.queue == queue && this.other == other && this.balanceHistory == balanceHistory
      ensures this.profitLossHistory == profitLossHistory && this.strategies == strategies
      ensures noIds == [] && !midnight && !checkOptions
    {
      this.trader := trader;
      this.accountId := accountId;
      this.queue := queue;
      this.other := other;
      noIds := [];
      this.balanceHistory := balanceHistory;
      this.profitLossHistory := profitLossHistory;
      this.strategies := strategies;
      midnight := false;
      checkOptions := false;
    }

    /** `killQueueOrder` over the documents the queue cursor yields. */
    method KillQueueOrder(orders: seq<QueueDoc>, now: int, cancelStatus: int -> int)
      modifies this
      ensures SweepState() == SweepRun(trader, accountId, old(SweepState()), orders, now, cancelStatus)
      ensures balanceHistory == old(balanceHistory) && profitLossHistory == old(profitLossHistory)
      ensures strategies == old(strategies) && midnight == old(midnight) && checkOptions == old(checkOptions)
    {
      var i := 0;
      while i < |orders|
        invariant 0 <= i <= |orders|
        invariant SweepRun(trader, accountId, old(SweepState()), orders, now, cancelStatus)
                  == SweepRun(trader, accountId, SweepState(), orders[i..], now, cancelStatus)
        invariant balanceHistory == old(balanceHistory) && profitLossHistory == old(profitLossHistory)
        invariant strategies == old(strategies) && midnight == old(midnight) && checkOptions == old(checkOptions)
      {
        assert orders[i..][1..] == orders[i + 1..];
        var o := orders[i];
        if ShouldCancel(now, o) && cancelStatus(o.orderId.value) in {200, 201} {
          other := other + [CancelRecord(o.symbol, o.orderType, "CANCELED", o.strategy, accountId, trader, now)];
          queue := queue - {(o.symbol, o.strategy)};
        }
        if MissingId(now, accountId, o) {
          if o.symbol !in noIds {
            noIds := noIds + [o.symbol];
          }
        } else if o.symbol in noIds {
          noIds := RemoveFirst(noIds, o.symbol);
        }
        i := i + 1;
      }
    }

    /** `balanceHistory` */
    method BalanceHistory(date: string, balance: real)
      modifies this
      ensures balanceHistory == RecordOnce(old(balanceHistory), DayRecord(trader, date, accountId, balance))
      ensures unchanged(this`queue, this`other, this`noIds, this`profitLossHistory, this`strategies)
      ensures midnight == old(midnight) && checkOptions == old(checkOptions)
    {
      balanceHistory := RecordOnce(balanceHistory, DayRecord(trader, date, accountId, balance));
    }

    /** The tally loop of `profitLossHistory`. */
    method DayProfitLoss(trades: seq<ClosedTrade>, date: string) returns (total: real)
      ensures total == ProfitLoss(trades, trader, accountId, date)
    {
      total := 0.0;
      var i := 0;
      while i < |trades|
        invariant 0 <= i <= |trades|
        invariant total == ProfitLoss(trades[..i], trader, accountId, date)
      {
        var t := trades[i];
        assert trades[..i + 1][..i] == trades[..i];
        if t.trader == trader && t.accountId == accountId && t.sellDate == date {
          total := total + (t.sellPrice * t.qty as real - t.buyPrice * t.qty as real);
        }
        i := i + 1;
      }
      assert trades[..|trades|] == trades;
    }

    /** `profitLossHistory` */
    method ProfitLossHistory(trades: seq<ClosedTrade>, date: string)
      modifies this
      ensures profitLossHistory == RecordOnce(old(profitLossHistory),
                                              DayRecord(trader, date, accountId, ProfitLoss(trades, trader, accountId, date)))
      ensures unchanged(this`queue, this`other, this`noIds, this`balanceHistory, this`strategies)
      ensures midnight == old(midnight) && checkOptions == old(checkOptions)
    {
      var total := DayProfitLoss(trades, date);
      profitLossHistory := RecordOnce(profitLossHistory, DayRecord(trader, date, accountId, total));
    }

    /** `sellOptionsAtExpiration`: the sell requests handed to `placeOrder`. */
    method SellOptionsAtExpiration(positions: seq<OptionPosition>, today: int) returns (sells: seq<SellRequest>)
      ensures sells == ExpirationSells(positions, trader, today)
    {
      sells := [];
      var i := 0;
      while i < |positions|
        invariant 0 <= i <= |positions|
        invariant sells == ExpirationSells(positions[..i], trader, today)
      {
        assert positions[..i + 1][..i] == positions[..i];
        if Expiring(positions[i], trader, today) {
          sells := sells + [SellRequestOf(positions[i])];
        }
        i := i + 1;
      }
      assert positions[..|positions|] == positions;
    }

    /** `updateStrategiesObject` */
    method UpdateStrategiesObject(name: string)
      modifies this
      ensures strategies == AddStrategyStub(old(strategies), name)
      ensures unchanged(this`queue, this`other, this`noIds, this`balanceHistory, this`profitLossHistory)
      ensures midnight == old(midnight) && checkOptions == old(checkOptions)
    {
      if name !in strategies {
        strategies := strategies[name := UserStrategy(1, true)];
      }
    }

    /** One pass of the `runTasks` loop after the sweep, at minute `tm`
        ("HH:MM"): the 09:30 expiry sell-off and the 23:55 history records,
        each behind its latch. */
    method Pass(tm: string, positions: seq<OptionPosition>, today: int, date: string, balance: real,
                trades: seq<ClosedTrade>) returns (sells: seq<SellRequest>)
      modifies this
      ensures checkOptions == (tm == "09:30") && midnight == (tm == "23:55")
      ensures sells == (if Latch(old(checkOptions), tm == "09:30").0 then ExpirationSells(positions, trader, today) else [])
      ensures balanceHistory == (if Latch(old(midnight), tm == "23:55").0
                                 then RecordOnce(old(balanceHistory), DayRecord(trader, date, accountId, balance))
                                 else old(balanceHistory))
      ensures profitLossHistory == (if Latch(old(midnight), tm == "23:55").0
                                    then RecordOnce(old(profitLossHistory),
                                                    DayRecord(trader, date, accountId, ProfitLoss(trades, trader, accountId, date)))
                                    else old(profitLossHistory))
      ensures unchanged(this`queue, this`other, this`noIds, this`strategies)
    {
      sells := [];
      if tm == "09:30" {
        if !checkOptions {
          sells := SellOptionsAtExpiration(positions, today);
          checkOptions := true;
        }
      } else {
        checkOptions := false;
      }
      if tm == "23:55" {
        if !midnight {
          BalanceHistory(date, balance);
          ProfitLossHistory(trades, date);
          midnight := true;
        }
      } else {
        midnight := false;
      }
    }
  }
}
