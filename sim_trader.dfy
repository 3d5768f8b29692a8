/** The simulated trader: it buys one share on a BUY signal and sells it on
    the next SELL signal, whatever the buying power, in two collections of
    its own. */
module SimTrading {
  import opened Wrappers
  import opened Numeric

  /** Symbols the simulator never buys. */
  const Forbidden: seq<string> := ["COTY", "MRO", "LGF/B", "PCG", "LGF/A"]

  /** A signal row. */
  datatype Row = Row(side: string, strategy: string, symbol: string)

  datatype OpenDoc = OpenDoc(symbol: string, qty: int, buyPrice: real, date: int, strategy: string)

  datatype ClosedDoc = ClosedDoc(symbol: string, qty: int, buyPrice: real, buyDate: int,
                                 sellPrice: real, sellDate: int, strategy: string, rov: real)

  /** The two collections; `open` in natural (insertion) order. */
  datatype Book = Book(open: seq<OpenDoc>, closed: seq<ClosedDoc>)

  predicate Holds(d: OpenDoc, symbol: string, strategy: string)
  {
    d.symbol == symbol && d.strategy == strategy
  }

  /** `find_one({"Symbol": …, "Strategy": …})`: the first match. */
  function FindOpen(open: seq<OpenDoc>, symbol: string, strategy: string): (r: Option<nat>)
    ensures r.None? <==> forall i :: 0 <= i < |open| ==> !Holds(open[i], symbol, strategy)
    ensures r.Some? ==> r.value < |open| && Holds(open[r.value], symbol, strategy)
                        && forall i :: 0 <= i < r.value ==> !Holds(open[i], symbol, strategy)
    decreases |open|
  {
    if |open| == 0 then None
    else if Holds(open[0], symbol, strategy) then Some(0)
    else
      match FindOpen(open[1..], symbol, strategy)
      case None => None
      case Some(i) => Some(i + 1)
  }

  /** At most one open position per (Symbol, Strategy). */
  predicate OnePerKey(open: seq<OpenDoc>)
  {
    forall i, j :: 0 <= i < j < |open| ==> !Holds(open[j], open[i].symbol, open[i].strategy)
  }

  /** Return on value in percent, to cents: sale total over purchase total
      (each rounded to cents), less one, times 100; zero when the purchase
      total rounds to zero. */
  function Rov(price: real, qty: int, buyPrice: real): (r: real)
    ensures HasDecimals(r, Two)
  {
    var sell := Round(Times(price, qty as real), Two);
    var buy := Round(Times(buyPrice, qty as real), Two);
    if buy != 0.0 then Round(Times(sell / buy - 1.0, 100.0), Two) else 0.0
  }

  /** Selling at the purchase price gives a return of zero. */
  lemma RovBreakEven(price: real, qty: int)
    ensures Rov(price, qty, price) == 0.0
  {
    var buy := Round(Times(price, qty as real), Two);
    if buy != 0.0 {
      assert buy / buy == 1.0;
      assert Times(buy / buy - 1.0, 100.0) == 0.0;
      RoundOfZero();
    }
  }

  /** Selling a long position no lower than bought never shows a loss. */
  lemma RovGain(price: real, qty: int, buyPrice: real)
    requires 0.0 <= buyPrice <= price && qty > 0
    ensures Rov(price, qty, buyPrice) >= 0.0
  {
    var q := qty as real;
    TimesMonotone(buyPrice, price, q);
    RoundMonotone(Times(buyPrice, q), Times(price, q), Two);
    RoundOfZero();
    RoundMonotone(0.0, Times(buyPrice, q), Two);
    var sell := Round(Times(price, q), Two);
    var buy := Round(Times(buyPrice, q), Two);
    if buy != 0.0 {
      QuotientAtLeastOne(sell, buy);
      assert 0.0 <= Times(sell / buy - 1.0, 100.0);
      RoundMonotone(0.0, Times(sell / buy - 1.0, 100.0), Two);
    }
  }

  lemma RoundOfZero()
    ensures Round(0.0, Two) == 0.0
  {
    assert 0.0 * Scale(Two) == 0.0;
    assert HasDecimals(0.0, Two);
    RoundIdempotent(0.0, Two);
  }

  lemma TimesMonotone(a: real, b: real, q: real)
    requires 0.0 <= a <= b && 0.0 <= q
    ensures 0.0 <= Times(a, q) <= Times(b, q)
  {
    if q > 0.0 {
      ScaleAtMost(0.0, a, q);
      ScaleAtMost(a, b, q);
    } else {
      assert q == 0.0;
      assert Times(a, q) == 0.0 && Times(b, q) == 0.0;
    }
  }

  lemma ScaleAtMost(x: real, y: real, q: real)
    requires x <= y && q > 0.0
    ensures Times(x, q) <= Times(y, q)
  {
    var d := y - x;
    assert Times(y, q) == Times(x, q) + d * q;
    assert d * q >= 0.0;
  }

  lemma QuotientAtLeastOne(x: real, y: real)
    requires 0.0 < y <= x
    ensures x / y >= 1.0
  {
    assert x / y * y == x;
  }

  function DeleteAt(s: seq<OpenDoc>, i: nat): (r: seq<OpenDoc>)
    requires i < |s|
    ensures |r| == |s| - 1
    ensures forall j :: 0 <= j < i ==> r[j] == s[j]
    ensures forall j :: i <= j < |r| ==> r[j] == s[j + 1]
  {
    s[..i] + s[i + 1..]
  }

  /** `buyOrder`: one share at the quoted last price; nothing when the quote
      lookup fails. */
  function Buy(b: Book, row: Row, quote: Option<real>, now: int): (r: Book)
    ensures r.closed == b.closed
    ensures quote.None? ==> r == b
    ensures quote.Some? ==> |r.open| == |b.open| + 1 && r.open[..|b.open|] == b.open
                            && r.open[|b.open|].qty == 1 && r.open[|b.open|].buyPrice == quote.value
                            && r.open[|b.open|].date == now
                            && Holds(r.open[|b.open|], row.symbol, row.strategy)
    ensures OnePerKey(b.open) && FindOpen(b.open, row.symbol, row.strategy).None? ==> OnePerKey(r.open)
  {
    if quote.None? then b
    else
      var r := b.(open := b.open + [OpenDoc(row.symbol, 1, quote.value, now, row.strategy)]);
      assert r.open[..|b.open|] == b.open;
      r
  }

  /** `sellOrder`: a closed record copying the position's quantity, price
      and date, then `delete_one` of the first open match; nothing when the
      quote lookup fails. */
  function Sell(b: Book, row: Row, pos: OpenDoc, quote: Option<real>, now: int): (r: Book)
    ensures quote.None? ==> r == b
    ensures quote.Some? ==> |r.closed| == |b.closed| + 1 && r.closed[..|b.closed|] == b.closed
    ensures quote.Some? ==>
              var c := r.closed[|b.closed|];
              c.qty == pos.qty && c.buyPrice == pos.buyPrice && c.buyDate == pos.date
              && c.sellPrice == quote.value && c.sellDate == now
              && c.symbol == row.symbol && c.strategy == row.strategy
              && c.rov == Rov(quote.value, pos.qty, pos.buyPrice)
    ensures quote.Some? && FindOpen(b.open, row.symbol, row.strategy).Some? ==>
              r.open == DeleteAt(b.open, FindOpen(b.open, row.symbol, row.strategy).value)
    ensures quote.Some? && FindOpen(b.open, row.symbol, row.strategy).None? ==> r.open == b.open
    ensures OnePerKey(b.open) ==> OnePerKey(r.open)
    ensures OnePerKey(b.open) && quote.Some? ==> FindOpen(r.open, row.symbol, row.strategy).None?
  {
    if quote.None? then b
    else
      var price := quote.value;
      var closed := b.closed + [ClosedDoc(row.symbol, pos.qty, pos.buyPrice, pos.date, price, now, row.strategy,
                                          Rov(price, pos.qty, pos.buyPrice))];
      assert closed[..|b.closed|] == b.closed;
      match FindOpen(b.open, row.symbol, row.strategy)
      case None => Book(b.open, closed)
      case Some(i) =>
        DeleteKeepsOne(b.open, i);
        Book(DeleteAt(b.open, i), closed)
  }

  /** Deleting the match of a key leaves at most one position per key, and
      none for that key. */
  lemma DeleteKeepsOne(open: seq<OpenDoc>, i: nat)
    requires i < |open|
    ensures OnePerKey(open) ==> OnePerKey(DeleteAt(open, i))
    ensures OnePerKey(open) ==> FindOpen(DeleteAt(open, i), open[i].symbol, open[i].strategy).None?
  {
    var r := DeleteAt(open, i);
    if OnePerKey(open) {
      forall j | 0 <= j < |r|
        ensures !Holds(r[j], open[i].symbol, open[i].strategy)
      {
        if j >= i {
          assert r[j] == open[j + 1];
        }
      }
      forall j, k | 0 <= j < k < |r|
        ensures !Holds(r[k], r[j].symbol, r[j].strategy)
      {
        var j' := if j < i then j else j + 1;
        var k' := if k < i then k else k + 1;
        assert r[j] == open[j'] && r[k] == open[k'] && j' < k';
      }
    }
  }

  /** One row of `runTrader`. A TEST_TSLA_OCO row with an open position
      calls `testCustomOrder` with one argument too many, and the exception
      ends the run. */
  function RowStep(b: Book, row: Row, quote: string -> Option<real>, now: int): (r: Run<Book>)
    ensures r.Stopped? <==> row.side == "TEST_TSLA_OCO" && FindOpen(b.open, row.symbol, row.strategy).Some?
    ensures r.Stopped? ==> r.value == b
    ensures |r.value.open| > |b.open| ==>
              row.side == "BUY" && row.symbol !in Forbidden && FindOpen(b.open, row.symbol, row.strategy).None?
    ensures r.value.closed != b.closed ==> row.side == "SELL" && FindOpen(b.open, row.symbol, row.strategy).Some?
    ensures OnePerKey(b.open) ==> OnePerKey(r.value.open)
    ensures b.closed <= r.value.closed
    ensures row.side == "BUY" && row.symbol !in Forbidden && FindOpen(b.open, row.symbol, row.strategy).None? ==>
              r == Running(Buy(b, row, quote(row.symbol), now))
    ensures !(row.side == "BUY" && row.symbol !in Forbidden) && row.side == "SELL"
            && FindOpen(b.open, row.symbol, row.strategy).Some? ==>
              r == Running(Sell(b, row, b.open[FindOpen(b.open, row.symbol, row.strategy).value], quote(row.symbol), now))
    ensures !(row.side == "BUY" && row.symbol !in Forbidden && FindOpen(b.open, row.symbol, row.strategy).None?)
            && !(row.side == "SELL" && FindOpen(b.open, row.symbol, row.strategy).Some?)
            && !(row.side == "TEST_TSLA_OCO" && FindOpen(b.open, row.symbol, row.strategy).Some?) ==>
              r == Running(b)
  {
    var pos := FindOpen(b.open, row.symbol, row.strategy);
    if row.side == "BUY" && row.symbol !in Forbidden then
      if pos.None? then Running(Buy(b, row, quote(row.symbol), now)) else Running(b)
    else if row.side == "TEST_TSLA_OCO" then
      if pos.Some? then Stopped(b) else Running(b)
    else if row.side == "SELL" then
      if pos.Some? then Running(Sell(b, row, b.open[pos.value], quote(row.symbol), now)) else Running(b)
    else Running(b)
  }

  function SimRun(b: Book, rows: seq<Row>, quote: string -> Option<real>, now: int): Run<Book>
    decreases |rows|
  {
    if |rows| == 0 then Running(b)
    else
      match RowStep(b, rows[0], quote, now)
      case Stopped(d) => Stopped(d)
      case Running(d) => SimRun(d, rows[1..], quote, now)
  }

  /** A run keeps at most one open position per key and never drops a
      closed record. */
  lemma {:induction false} SimRunKeeps(b: Book, rows: seq<Row>, quote: string -> Option<real>, now: int)
    requires OnePerKey(b.open)
    ensures OnePerKey(SimRun(b, rows, quote, now).value.open)
    ensures b.closed <= SimRun(b, rows, quote, now).value.closed
    decreases |rows|
  {
    if |rows| > 0 {
      var step := RowStep(b, rows[0], quote, now);
      if step.Running? {
        SimRunKeeps(step.value, rows[1..], quote, now);
      }
    }
  }

  class SimTrader {
    var open: seq<OpenDoc>
    var closed: seq<ClosedDoc>

    function Snapshot(): Book
      reads this
    {
      Book(open, closed)
    }

    /** The trader over the existing contents of its two collections. */
    constructor (open: seq<OpenDoc>, closed: seq<ClosedDoc>)
      ensures this.open == open && this.closed == closed
    {
      this.open := open;
      this.closed := closed;
    }

    /** `buyOrder` */
    method BuyOrder(row: Row, quote: Option<real>, now: int)
      modifies this
      ensures Snapshot() == Buy(old(Snapshot()), row, quote, now)
    {
      if quote.Some? {
        open := open + [OpenDoc(row.symbol, 1, quote.value, now, row.strategy)];
      }
    }

    /** `sellOrder` */
    method SellOrder(row: Row, pos: OpenDoc, quote: Option<real>, now: int)
      modifies this
      ensures Snapshot() == Sell(old(Snapshot()), row, pos, quote, now)
    {
      if quote.None? {
        return;
      }
      var price := quote.value;
      closed := closed + [ClosedDoc(row.symbol, pos.qty, pos.buyPrice, pos.date, price, now, row.strategy,
                                    Rov(price, pos.qty, pos.buyPrice))];
      var i := FindOpen(open, row.symbol, row.strategy);
      if i.Some? {
        open := open[..i.value] + open[i.value + 1..];
      }
    }

    /** The body of `runTrader`'s loop for one row; true when it raised. */
    method TradeRow(row: Row, quote: string -> Option<real>, now: int) returns (stopped: bool)
      modifies this
      ensures (if stopped then Stopped(Snapshot()) else Running(Snapshot())) == RowStep(old(Snapshot()), row, quote, now)
    {
      var pos := FindOpen(open, row.symbol, row.strategy);
      if row.side == "BUY" && row.symbol !in Forbidden {
        if pos.None? {
          BuyOrder(row, quote(row.symbol), now);
        }
      } else if row.side == "TEST_TSLA_OCO" {
        if pos.Some? {
          return true;
        }
      } else if row.side == "SELL" {
        if pos.Some? {
          SellOrder(row, open[pos.value], quote(row.symbol), now);
        }
      }
      return false;
    }

    /** `runTrader` */
    method RunTrader(rows: seq<Row>, quote: string -> Option<real>, now: int)
      modifies this
      ensures Snapshot() == SimRun(old(Snapshot()), rows, quote, now).value
      ensures OnePerKey(old(open)) ==> OnePerKey(open)
    {
      ghost var start := Snapshot();
      ghost var target := SimRun(start, rows, quote, now);
      var i := 0;
      var stopped := false;
      while i < |rows| && !stopped
        invariant 0 <= i <= |rows|
        invariant target == if stopped then Stopped(Snapshot()) else SimRun(Snapshot(), rows[i..], quote, now)
      {
        assert rows[i..][1..] == rows[i + 1..];
        stopped := TradeRow(rows[i], quote, now);
        i := i + 1;
      }
      assert Snapshot() == target.value;
      if OnePerKey(start.open) {
        SimRunKeeps(start, rows, quote, now);
      }
    }
  }
}
