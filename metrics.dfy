/**
 * Balance tracking of the metrics collector
 * (grid_trading/monitoring/metrics.py).
 *
 * The collector keeps the list of recorded trades, the running balance and the
 * highest balance seen so far. Both numbers are functions of the trade list:
 * the balance is the sum of the trades' cash flows and the peak is the largest
 * balance any prefix of the list reached, starting from zero.
 */
module Metrics {

  /** A `datetime`; the collector only stores it, so any totally ordered stamp will do. */
  type Timestamp = int

  /** One recorded trade: the dictionary `add_trade` appends. */
  datatype Trade = Trade(price: real, quantity: real, side: string, timestamp: Timestamp, fees: real)

  function Max(a: real, b: real): real {
    if a >= b then a else b
  }

  /** Cash flow of one trade: a `'buy'` pays value and fees, any other side receives value less fees. */
  function CashFlow(t: Trade): real {
    if t.side == "buy" then -(t.price * t.quantity + t.fees) else t.price * t.quantity - t.fees
  }

  /** The balance after the given trades, starting from zero. */
  function Balance(trades: seq<Trade>): real
    decreases |trades|
  {
    if trades == [] then 0.0 else Balance(trades[..|trades| - 1]) + CashFlow(trades[|trades| - 1])
  }

  /** The peak balance after the given trades, starting from zero. */
  function Peak(trades: seq<Trade>): real
    decreases |trades|
  {
    if trades == [] then 0.0 else Max(Peak(trades[..|trades| - 1]), Balance(trades))
  }

  /** The balance of two stretches of trading is the sum of their balances. */
  lemma {:induction false} BalanceOfConcatenation(a: seq<Trade>, b: seq<Trade>)
    ensures Balance(a + b) == Balance(a) + Balance(b)
    decreases |b|
  {
    if b == [] {
      assert a + b == a;
    } else {
      var b' := b[..|b| - 1];
      BalanceOfConcatenation(a, b');
      assert (a + b)[..|a + b| - 1] == a + b';
    }
  }

  /** The peak is at least the balance every prefix of the trades reached. */
  lemma {:induction false} PeakBoundsEveryPrefix(trades: seq<Trade>, k: nat)
    requires k <= |trades|
    ensures Peak(trades) >= Balance(trades[..k])
    decreases |trades|
  {
    if k == |trades| {
      assert trades[..k] == trades;
    } else {
      var prefix := trades[..|trades| - 1];
      PeakBoundsEveryPrefix(prefix, k);
      assert prefix[..k] == trades[..k];
    }
  }

  /** The peak is a balance that some prefix (possibly the empty one) actually reached. */
  lemma {:induction false} PeakIsReached(trades: seq<Trade>)
    ensures exists k :: 0 <= k <= |trades| && Peak(trades) == Balance(trades[..k])
    decreases |trades|
  {
    if trades == [] {
      assert Peak(trades) == Balance(trades[..0]);
    } else {
      var prefix := trades[..|trades| - 1];
      PeakIsReached(prefix);
      var k :| 0 <= k <= |prefix| && Peak(prefix) == Balance(prefix[..k]);
      assert prefix[..k] == trades[..k];
      assert trades[..|trades|] == trades;
      if Peak(trades) == Peak(prefix) {
        assert Peak(trades) == Balance(trades[..k]);
      } else {
        assert Peak(trades) == Balance(trades[..|trades|]);
      }
    }
  }

  /** The peak never falls below the starting balance of zero. */
  lemma {:induction false} PeakNonNegative(trades: seq<Trade>)
    ensures Peak(trades) >= 0.0
  {
    PeakBoundsEveryPrefix(trades, 0);
    assert trades[..0] == [];
  }

  /** Recording a trade never lowers the peak. */
  lemma PeakNeverFalls(trades: seq<Trade>, t: Trade)
    ensures Peak(trades + [t]) >= Peak(trades)
  {
  }

  class MetricsCollector {
    var trades: seq<Trade>
    var currentBalance: real
    var peakBalance: real

    /** The two numbers are what the trade list says they are. */
    ghost predicate Valid()
      reads this
    {
      currentBalance == Balance(trades) && peakBalance == Peak(trades)
    }

    constructor ()
      ensures Valid()
      ensures trades == [] && currentBalance == 0.0 && peakBalance == 0.0
    {
      trades := [];
      currentBalance := 0.0;
      peakBalance := 0.0;
    }

    /** `add_trade`. */
    method AddTrade(price: real, quantity: real, side: string, timestamp: Timestamp, fees: real)
      modifies this
      ensures trades == old(trades) + [Trade(price, quantity, side, timestamp, fees)]
      ensures side == "buy" ==> currentBalance == old(currentBalance) - (price * quantity + fees)
      ensures side != "buy" ==> currentBalance == old(currentBalance) + (price * quantity - fees)
      ensures peakBalance == Max(old(peakBalance), currentBalance)
      ensures peakBalance >= currentBalance && peakBalance >= old(peakBalance)
      ensures old(Valid()) ==> Valid()
    {
      var trade := Trade(price, quantity, side, timestamp, fees);
      trades := trades + [trade];
      var tradeValue := price * quantity;
      if side == "buy" {
        currentBalance := currentBalance - (tradeValue + fees);
      } else {
        currentBalance := currentBalance + (tradeValue - fees);
      }
      if currentBalance > peakBalance {
        peakBalance := currentBalance;
      }
      assert trades[..|trades| - 1] == old(trades);
    }
  }
}
