/** The summary reported for one schuur case (SchuurPojo) and how
    addCurrentFlutsCase builds it. */
module SchuurCases {
  import opened TreeSets

  /** How many fluts counts a summary keeps at most, before sorting. */
  const MaxReportedCounts: nat := 10

  /** SchuurPojo: the number of schuurs, their total profit and the sorted set of
      fluts counts to buy (a TreeSet, here its ascending duplicate-free sequence). */
  datatype SchuurCase = SchuurCase(schuursCount: int, schuurProfit: int, flutsCountsToBuy: seq<int>)

  /** addCurrentFlutsCase: keeps the first ten counts in the order they were
      generated (all of them when there are fewer) and makes a TreeSet of them. */
  function AddCurrentFlutsCase(schuurSize: int, totalProfit: int, flutsCountToBuy: seq<int>): (c: SchuurCase)
    ensures c.schuursCount == schuurSize && c.schuurProfit == totalProfit
    ensures StrictlyIncreasing(c.flutsCountsToBuy)
    ensures |c.flutsCountsToBuy| <= MaxReportedCounts
    ensures |flutsCountToBuy| >= MaxReportedCounts ==>
              forall x :: x in c.flutsCountsToBuy <==> x in flutsCountToBuy[..MaxReportedCounts]
    ensures |flutsCountToBuy| < MaxReportedCounts ==>
              forall x :: x in c.flutsCountsToBuy <==> x in flutsCountToBuy
  {
    var kept := if |flutsCountToBuy| >= MaxReportedCounts then flutsCountToBuy[..MaxReportedCounts] else flutsCountToBuy;
    SchuurCase(schuurSize, totalProfit, FromSeq(kept))
  }

  /** The counts kept are the first ten generated, not the ten smallest: of the
      eleven counts 11, 10, ..., 1 the summary drops the smallest, 1. */
  lemma FirstTenNotSmallestTen()
    ensures AddCurrentFlutsCase(1, 0, [11, 10, 9, 8, 7, 6, 5, 4, 3, 2, 1]).flutsCountsToBuy
            == [2, 3, 4, 5, 6, 7, 8, 9, 10, 11]
  {
    var c := AddCurrentFlutsCase(1, 0, [11, 10, 9, 8, 7, 6, 5, 4, 3, 2, 1]).flutsCountsToBuy;
    var expected := [2, 3, 4, 5, 6, 7, 8, 9, 10, 11];
    assert [11, 10, 9, 8, 7, 6, 5, 4, 3, 2, 1][..10] == [11, 10, 9, 8, 7, 6, 5, 4, 3, 2];
    forall y
      ensures y in c <==> y in expected
    {
      assert y in [11, 10, 9, 8, 7, 6, 5, 4, 3, 2] <==> 2 <= y <= 11;
      assert y in expected <==> 2 <= y <= 11;
    }
    assert StrictlyIncreasing(expected);
    Canonical(c, expected);
  }
}
