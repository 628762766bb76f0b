/** The single-schuur optimiser: the inner loop of calculateProfit, which scans
    one fluts pile and finds the best profit and every number of fluts that
    reaches it. Prices are mathematical integers. */
module GroupProfit {
  import opened TreeSets

  /** Every flut bought is resold at this price (FLUTS_SELL_PRICE). */
  const FlutsSellPrice: int := 10

  /** What buying the first k fluts of the pile costs. */
  function PrefixCost(pile: seq<int>, k: nat): int
    requires k <= |pile|
  {
    if k == 0 then 0 else PrefixCost(pile, k - 1) + pile[k - 1]
  }

  /** Profit of buying the first k fluts and reselling them all. */
  function Profit(pile: seq<int>, k: nat): int
    requires k <= |pile|
  {
    FlutsSellPrice * k - PrefixCost(pile, k)
  }

  function Max(a: int, b: int): int
  {
    if a < b then b else a
  }

  /** The best of buying nothing (profit 0) and buying the first k fluts for
      some k in 1..m: it is at least 0, no such k beats it, and unless it is the
      baseline 0 some k reaches it. */
  function BestUpTo(pile: seq<int>, m: nat): (b: int)
    requires m <= |pile|
    ensures b >= 0
    ensures forall k :: 1 <= k <= m ==> Profit(pile, k) <= b
    ensures b == 0 || exists k :: 1 <= k <= m && Profit(pile, k) == b
  {
    if m == 0 then 0 else Max(BestUpTo(pile, m - 1), Profit(pile, m))
  }

  /** In ascending order, every k in 1..m whose profit is exactly b. */
  function CountsWith(pile: seq<int>, m: nat, b: int): (r: seq<int>)
    requires m <= |pile|
    ensures forall k {:trigger k in r} :: k in r <==> 1 <= k <= m && Profit(pile, k) == b
    ensures StrictlyIncreasing(r)
  {
    if m == 0 then []
    else
      var before := CountsWith(pile, m - 1, b);
      assert forall i :: 0 <= i < |before| ==> before[i] < m by {
        forall i | 0 <= i < |before| ensures before[i] < m {
          assert before[i] in before;
        }
      }
      before + (if Profit(pile, m) == b then [m] else [])
  }

  /** The best profit for one schuur (bestCurrentProfit after the scan). */
  function BestProfit(pile: seq<int>): int
  {
    BestUpTo(pile, |pile|)
  }

  /** The fluts counts that reach it (currentFlutsNumberToBuy after the scan). */
  function BestCounts(pile: seq<int>): seq<int>
  {
    CountsWith(pile, |pile|, BestProfit(pile))
  }

  /** No count reaches a profit above the best so far. */
  lemma {:induction false} NoCountsAbove(pile: seq<int>, m: nat, b: int)
    requires m <= |pile|
    requires b > BestUpTo(pile, m)
    ensures CountsWith(pile, m, b) == []
  {
    if m > 0 {
      assert BestUpTo(pile, m - 1) <= BestUpTo(pile, m);
      NoCountsAbove(pile, m - 1, b);
    }
  }

  /** Extending the scan by one flut. */
  lemma Step(pile: seq<int>, m: nat, b: int)
    requires m < |pile|
    ensures Profit(pile, m + 1) == FlutsSellPrice * (m + 1) - (PrefixCost(pile, m) + pile[m])
    ensures BestUpTo(pile, m + 1) == Max(BestUpTo(pile, m), Profit(pile, m + 1))
    ensures CountsWith(pile, m + 1, b) == CountsWith(pile, m, b) + (if Profit(pile, m + 1) == b then [m + 1] else [])
  {
  }

  /** The inner loop of calculateProfit for one fluts pile: a running prefix sum,
      the best profit so far starting from 0, and the list of counts reaching it,
      cleared on a strictly better profit and appended to on an equal one. */
  method BestSchuurProfit(flutsPile: seq<int>) returns (bestCurrentProfit: int, currentFlutsNumberToBuy: seq<int>)
    ensures bestCurrentProfit == BestProfit(flutsPile)
    ensures currentFlutsNumberToBuy == BestCounts(flutsPile)
    ensures bestCurrentProfit >= 0
    ensures forall k :: 1 <= k <= |flutsPile| ==> Profit(flutsPile, k) <= bestCurrentProfit
    ensures bestCurrentProfit > 0 ==> currentFlutsNumberToBuy != []
    ensures forall k :: k in currentFlutsNumberToBuy <==> 1 <= k <= |flutsPile| && Profit(flutsPile, k) == bestCurrentProfit
    ensures StrictlyIncreasing(currentFlutsNumberToBuy)
  {
    var sum := 0;
    bestCurrentProfit := 0;
    currentFlutsNumberToBuy := [];
    var flutNumber := 0;
    while flutNumber < |flutsPile|
      invariant 0 <= flutNumber <= |flutsPile|
      invariant sum == PrefixCost(flutsPile, flutNumber)
      invariant bestCurrentProfit == BestUpTo(flutsPile, flutNumber)
      invariant currentFlutsNumberToBuy == CountsWith(flutsPile, flutNumber, bestCurrentProfit)
    {
      sum := sum + flutsPile[flutNumber];
      Step(flutsPile, flutNumber, bestCurrentProfit);
      var currentProfit := FlutsSellPrice * (flutNumber + 1) - sum;
      if currentProfit > bestCurrentProfit {
        NoCountsAbove(flutsPile, flutNumber, currentProfit);
        currentFlutsNumberToBuy := [flutNumber + 1];
        bestCurrentProfit := currentProfit;
      } else if currentProfit == bestCurrentProfit {
        currentFlutsNumberToBuy := currentFlutsNumberToBuy + [flutNumber + 1];
      }
      flutNumber := flutNumber + 1;
    }
    if bestCurrentProfit > 0 {
      var w :| 1 <= w <= |flutsPile| && Profit(flutsPile, w) == bestCurrentProfit;
      assert w in currentFlutsNumberToBuy;
    }
  }

  /** The best-count list is empty exactly when every count loses money; a count
      that breaks even ties the baseline 0 and is listed. */
  lemma BestCountsEmptyIff(pile: seq<int>)
    ensures BestCounts(pile) == [] <==> forall k :: 1 <= k <= |pile| ==> Profit(pile, k) < 0
  {
    var b := BestProfit(pile);
    if forall k :: 1 <= k <= |pile| ==> Profit(pile, k) < 0 {
      assert b == 0;
      if BestCounts(pile) != [] {
        assert BestCounts(pile)[0] in BestCounts(pile);
      }
    } else {
      var k :| 1 <= k <= |pile| && Profit(pile, k) >= 0;
      if b == 0 {
        assert k in BestCounts(pile);
      } else {
        var w :| 1 <= w <= |pile| && Profit(pile, w) == b;
        assert w in BestCounts(pile);
      }
    }
  }

  /** Prices 2, 3, 4 give profits 8, 15, 21: the best is to buy all three. */
  lemma RisingPricesExample()
    ensures BestProfit([2, 3, 4]) == 21 && BestCounts([2, 3, 4]) == [3]
  {
  }

  /** Prices 5, 10, 15 give profits 5, 5, 0: one or two fluts tie for the best. */
  lemma TiedCountsExample()
    ensures BestProfit([5, 10, 15]) == 5 && BestCounts([5, 10, 15]) == [1, 2]
  {
    var pile := [5, 10, 15];
    assert Profit(pile, 1) == 5 && Profit(pile, 2) == 5 && Profit(pile, 3) == 0;
    assert BestUpTo(pile, 2) == 5;
    assert CountsWith(pile, 1, 5) == [1];
    assert CountsWith(pile, 2, 5) == [1, 2];
  }
}
