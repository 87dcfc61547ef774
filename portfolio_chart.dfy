/**
 * The data series of the `PortfolioChart` component
 * (frontend/src/components/PortfolioChart.jsx): one point per trade, whose value
 * is the running signed quantity times that trade's own price. Only the data
 * construction is modelled; the time label keeps the raw `createdAt` instead of
 * its locale-formatted string.
 */
module PortfolioChart {
  import opened Sums
  import opened TradeRoutes

  /** One chart point: the trade's time and the plotted value. */
  datatype Point = Point(time: int, value: real)

  /** What one trade adds to `cumulative`: every type other than BUY counts as a sale. */
  function ChartDelta(t: Trade): real
  {
    (if t.kind == BUY then 1.0 else -1.0) * t.quantity
  }

  /** The value of `cumulative` after processing `trades`. */
  function Cumulative(trades: seq<Trade>): real
  {
    Sum(trades, ChartDelta)
  }

  /** The series, built one trade at a time. */
  function Series(trades: seq<Trade>): seq<Point>
  {
    if trades == [] then []
    else Series(trades[..|trades| - 1]) + [Point(trades[|trades| - 1].createdAt, Worth(Cumulative(trades), trades[|trades| - 1].price))]
  }

  /** One point per trade, in input order, valued at the running quantity after that trade. */
  lemma {:induction false} SeriesAt(trades: seq<Trade>, i: nat)
    requires i < |trades|
    ensures |Series(trades)| == |trades|
    ensures Series(trades)[i] == Point(trades[i].createdAt, Worth(Cumulative(trades[..i + 1]), trades[i].price))
  {
    var n := |trades| - 1;
    SeriesLength(trades);
    if i < n {
      SeriesAt(trades[..n], i);
      assert trades[..n][..i + 1] == trades[..i + 1];
    } else {
      assert trades[..i + 1] == trades;
    }
  }

  /** The series has exactly as many points as there are trades. */
  lemma {:induction false} SeriesLength(trades: seq<Trade>)
    ensures |Series(trades)| == |trades|
  {
    if trades != [] {
      SeriesLength(trades[..|trades| - 1]);
    }
  }

  /** A non-empty series ends with the point of its last trade. */
  lemma {:induction false} SeriesUnfold(all: seq<Trade>)
    requires all != []
    ensures Series(all) == Series(all[..|all| - 1]) + [Point(all[|all| - 1].createdAt, Worth(Cumulative(all), all[|all| - 1].price))]
    ensures Cumulative(all) == Cumulative(all[..|all| - 1]) + ChartDelta(all[|all| - 1])
  {
  }

  /** One more trade extends the series by exactly one point and leaves the others alone. */
  lemma {:induction false} SeriesExtends(trades: seq<Trade>, t: Trade)
    ensures Series(trades + [t]) == Series(trades) + [Point(t.createdAt, Worth(Cumulative(trades + [t]), t.price))]
    ensures Cumulative(trades + [t]) == Cumulative(trades) + ChartDelta(t)
  {
    var all := trades + [t];
    SeriesUnfold(all);
    assert all[..|all| - 1] == trades && all[|all| - 1] == t;
  }

  /** The chart's running quantity is the back end's net quantity minus the quantity of trades of other types. */
  lemma {:induction false} ChartVersusBackend(trades: seq<Trade>)
    ensures Cumulative(trades) == NetQuantity(trades) - Sum(trades, OtherTypeQuantity)
  {
    SumDifference(trades, SignedQuantity, OtherTypeQuantity, ChartDelta);
  }

  /** The quantity of a trade whose type is neither BUY nor SELL. */
  function OtherTypeQuantity(t: Trade): real
  {
    if IsTradeType(t.kind) then 0.0 else t.quantity
  }

  /** When every trade is a BUY or a SELL, the chart's final quantity is the back end's `totalQuantity`. */
  lemma {:induction false} ChartAgreesWithBackend(trades: seq<Trade>)
    requires forall i :: 0 <= i < |trades| ==> IsTradeType(trades[i].kind)
    ensures Cumulative(trades) == NetQuantity(trades)
  {
    ChartVersusBackend(trades);
    SumZero(trades, OtherTypeQuantity);
  }

  /** A trade of another type is a sale for the chart but is ignored by the back end. */
  lemma {:induction false} OtherTypeDiverges(trades: seq<Trade>, t: Trade)
    requires !IsTradeType(t.kind)
    ensures Cumulative(trades + [t]) == Cumulative(trades) - t.quantity
    ensures NetQuantity(trades + [t]) == NetQuantity(trades)
  {
    var all := trades + [t];
    assert all[..|all| - 1] == trades;
  }

  /** The `trades.map` of the component, with its running `cumulative` variable. */
  method BuildSeries(trades: seq<Trade>) returns (data: seq<Point>)
    ensures |data| == |trades|
    ensures forall i :: 0 <= i < |trades| ==>
      data[i] == Point(trades[i].createdAt, Worth(Cumulative(trades[..i + 1]), trades[i].price))
    ensures data == Series(trades)
  {
    var cumulative := 0.0;
    data := [];
    for i := 0 to |trades|
      invariant cumulative == Cumulative(trades[..i])
      invariant data == Series(trades[..i])
    {
      var trade := trades[i];
      cumulative := cumulative + (if trade.kind == BUY then 1.0 else -1.0) * trade.quantity;
      assert trades[..i + 1] == trades[..i] + [trade];
      SeriesExtends(trades[..i], trade);
      assert cumulative == Cumulative(trades[..i + 1]);
      data := data + [Point(trade.createdAt, Worth(cumulative, trade.price))];
    }
    assert trades[..|trades|] == trades;
    SeriesLength(trades);
    forall i | 0 <= i < |trades|
      ensures data[i] == Point(trades[i].createdAt, Worth(Cumulative(trades[..i + 1]), trades[i].price))
    {
      SeriesAt(trades, i);
    }
  }
}
