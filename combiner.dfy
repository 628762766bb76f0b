/** Combining the schuurs of one case: their best profits are added up and
    their best-count lists merged by a cartesian sum (adjustSchuurFlutCounts). */
module Combiner {
  import opened GroupProfit

  /** Every count of cur raised by n, in the order of cur. */
  function Shift(cur: seq<int>, n: int): seq<int>
  {
    seq(|cur|, j requires 0 <= j < |cur| => cur[j] + n)
  }

  /** The nested loops of adjustSchuurFlutCounts: the outer one over news, the
      inner one over cur, each pass appending cur[j] + news[i]. */
  function Product(news: seq<int>, cur: seq<int>): seq<int>
  {
    if news == [] then [] else Product(news[..|news| - 1], cur) + Shift(cur, news[|news| - 1])
  }

  lemma {:induction false} ProductLength(news: seq<int>, cur: seq<int>)
    ensures |Product(news, cur)| == |news| * |cur|
  {
    if news != [] {
      ProductLength(news[..|news| - 1], cur);
      assert (|news| - 1) * |cur| + |cur| == |news| * |cur|;
    }
  }

  /** adjustSchuurFlutCounts: an empty running list is replaced by the new one,
      otherwise every running count is added to every new count. */
  function AdjustedCounts(cur: seq<int>, news: seq<int>): (r: seq<int>)
    ensures cur == [] ==> r == news
    ensures cur != [] ==> |r| == |news| * |cur|
  {
    if cur == [] then news
    else
      ProductLength(news, cur);
      Product(news, cur)
  }

  /** The element at position i * |cur| + j of the merged list is cur[j] + news[i]. */
  lemma {:induction false} AdjustedCountAt(cur: seq<int>, news: seq<int>, i: int, j: int)
    requires cur != []
    requires 0 <= i < |news| && 0 <= j < |cur|
    ensures i * |cur| + j < |AdjustedCounts(cur, news)|
    ensures AdjustedCounts(cur, news)[i * |cur| + j] == cur[j] + news[i]
  {
    ProductAt(news, cur, i, j);
  }

  lemma {:induction false} ProductAt(news: seq<int>, cur: seq<int>, i: int, j: int)
    requires 0 <= i < |news| && 0 <= j < |cur|
    ensures i * |cur| + j < |Product(news, cur)|
    ensures Product(news, cur)[i * |cur| + j] == cur[j] + news[i]
  {
    var n, c := |news|, |cur|;
    var init, last := news[..n - 1], news[n - 1];
    var before, row := Product(init, cur), Shift(cur, last);
    assert Product(news, cur) == before + row;
    ProductLength(init, cur);
    var base := (n - 1) * c;
    assert |before| == base;
    if i < n - 1 {
      RowBelow(i, j, c, n - 1);
      ProductAt(init, cur, i, j);
      assert before[i * c + j] == cur[j] + init[i];
    } else {
      assert i * c == base;
      assert row[j] == cur[j] + last;
    }
  }

  /** Position j of row i lies before row m when i < m. */
  lemma {:induction false} RowBelow(i: int, j: int, c: int, m: int)
    requires 0 <= i < m && 0 <= j < c
    ensures i * c + j < m * c
  {
    if i < m - 1 {
      RowBelow(i, j, c, m - 1);
    }
    assert (m - 1) * c + c == m * c;
  }

  /** Merging a nonempty running list with a schuur that has no best count gives
      the empty list, so the next schuur's counts then replace it. */
  lemma NoNewCountsEmpties(cur: seq<int>)
    requires cur != []
    ensures AdjustedCounts(cur, []) == []
  {
  }

  /** What may be added to what: when cur is nonempty, the merged list holds
      exactly the sums of a running count and a new count. */
  lemma {:induction false} ProductMembers(news: seq<int>, cur: seq<int>)
    ensures forall x :: x in Product(news, cur) <==> exists a, n :: a in cur && n in news && x == a + n
  {
    if news != [] {
      var init, last := news[..|news| - 1], news[|news| - 1];
      ProductMembers(init, cur);
      assert news == init + [last];
      forall x
        ensures x in Product(news, cur) <==> exists a, n :: a in cur && n in news && x == a + n
      {
        if x in Product(news, cur) {
          if x in Product(init, cur) {
            var a, n :| a in cur && n in init && x == a + n;
            assert n in news;
          } else {
            assert x in Shift(cur, last);
            var j :| 0 <= j < |cur| && Shift(cur, last)[j] == x;
            assert cur[j] in cur && last in news;
          }
        }
        if exists a, n :: a in cur && n in news && x == a + n {
          var a, n :| a in cur && n in news && x == a + n;
          if n in init {
            assert x in Product(init, cur);
          } else {
            assert n == last;
            var j :| 0 <= j < |cur| && cur[j] == a;
            assert Shift(cur, last)[j] == x;
            assert x in Shift(cur, last);
          }
        }
      }
    }
  }

  /** The nested loops of adjustSchuurFlutCounts. */
  method AdjustSchuurFlutCounts(currentFlutsCountList: seq<int>, newFlutsCountList: seq<int>)
    returns (adjustedFlutsCountList: seq<int>)
    ensures adjustedFlutsCountList == AdjustedCounts(currentFlutsCountList, newFlutsCountList)
    ensures currentFlutsCountList == [] ==> adjustedFlutsCountList == newFlutsCountList
    ensures currentFlutsCountList != [] ==>
              |adjustedFlutsCountList| == |newFlutsCountList| * |currentFlutsCountList|
  {
    if currentFlutsCountList == [] {
      return newFlutsCountList;
    }
    adjustedFlutsCountList := [];
    var i := 0;
    while i < |newFlutsCountList|
      invariant 0 <= i <= |newFlutsCountList|
      invariant adjustedFlutsCountList == Product(newFlutsCountList[..i], currentFlutsCountList)
    {
      var newFlutsCount := newFlutsCountList[i];
      var j := 0;
      while j < |currentFlutsCountList|
        invariant 0 <= j <= |currentFlutsCountList|
        invariant adjustedFlutsCountList
                  == Product(newFlutsCountList[..i], currentFlutsCountList)
                     + Shift(currentFlutsCountList[..j], newFlutsCount)
      {
        assert Shift(currentFlutsCountList[..j + 1], newFlutsCount)
               == Shift(currentFlutsCountList[..j], newFlutsCount) + [currentFlutsCountList[j] + newFlutsCount];
        adjustedFlutsCountList := adjustedFlutsCountList + [currentFlutsCountList[j] + newFlutsCount];
        j := j + 1;
      }
      assert currentFlutsCountList[..j] == currentFlutsCountList;
      assert newFlutsCountList[..i + 1][..i] == newFlutsCountList[..i];
      i := i + 1;
    }
    assert newFlutsCountList[..i] == newFlutsCountList;
  }

  /** totalProfit after the schuurs of one case: the sum of their best profits. */
  function TotalProfit(schuurs: seq<seq<int>>): int
  {
    if schuurs == [] then 0
    else TotalProfit(schuurs[..|schuurs| - 1]) + BestProfit(schuurs[|schuurs| - 1])
  }

  /** The best-count list of each schuur of a case, in input order. */
  function BestCountLists(schuurs: seq<seq<int>>): seq<seq<int>>
  {
    seq(|schuurs|, g requires 0 <= g < |schuurs| => BestCounts(schuurs[g]))
  }

  /** One more schuur of a case: its best profit is added and its best-count
      list merged last. */
  lemma CaseStep(schuurs: seq<seq<int>>, s: int)
    requires 0 <= s < |schuurs|
    ensures TotalProfit(schuurs[..s + 1]) == TotalProfit(schuurs[..s]) + BestProfit(schuurs[s])
    ensures MergeAll(BestCountLists(schuurs[..s + 1]))
            == AdjustedCounts(MergeAll(BestCountLists(schuurs[..s])), BestCounts(schuurs[s]))
  {
    var lists := BestCountLists(schuurs[..s + 1]);
    assert schuurs[..s + 1][..s] == schuurs[..s];
    assert lists[..s] == BestCountLists(schuurs[..s]);
  }

  /** The running list after merging the given best-count lists in order,
      starting from the empty list. */
  function MergeAll(lists: seq<seq<int>>): seq<int>
  {
    if lists == [] then [] else AdjustedCounts(MergeAll(lists[..|lists| - 1]), lists[|lists| - 1])
  }

  /** flutsCountToBuy after the schuurs of one case. */
  function CombinedCounts(schuurs: seq<seq<int>>): seq<int>
  {
    MergeAll(BestCountLists(schuurs))
  }

  lemma {:induction false} TotalProfitNonNegative(schuurs: seq<seq<int>>)
    ensures TotalProfit(schuurs) >= 0
  {
    if schuurs != [] {
      TotalProfitNonNegative(schuurs[..|schuurs| - 1]);
    }
  }

  /** A case of one schuur reports that schuur's best counts. */
  lemma SingleSchuur(pile: seq<int>)
    ensures CombinedCounts([pile]) == BestCounts(pile)
    ensures TotalProfit([pile]) == BestProfit(pile)
  {
    assert [pile][..0] == [];
    var lists := BestCountLists([pile]);
    assert lists == [BestCounts(pile)];
    assert MergeAll(lists[..0]) == [];
  }

  /** Merging onto an empty running list is merging from the start. */
  lemma {:induction false} MergeAllFromEmpty(before: seq<seq<int>>, after: seq<seq<int>>)
    requires MergeAll(before) == []
    ensures MergeAll(before + after) == MergeAll(after)
  {
    if after != [] {
      var n := |after| - 1;
      assert (before + after)[..|before| + n] == before + after[..n];
      MergeAllFromEmpty(before, after[..n]);
    }
  }

  /** A schuur whose every count loses money has no best count, and merging it
      empties the running list, wherever it stands; the schuurs after it then
      merge as if they came first, so the counts of the schuurs before it are
      not added in. */
  lemma LosingSchuurResets(before: seq<seq<int>>, losing: seq<int>, after: seq<seq<int>>)
    requires BestCounts(losing) == []
    ensures CombinedCounts(before + [losing] + after) == CombinedCounts(after)
  {
    var lists := BestCountLists(before + [losing] + after);
    var head := BestCountLists(before) + [[]];
    assert lists == head + BestCountLists(after);
    assert head[..|head| - 1] == BestCountLists(before);
    assert MergeAll(head) == [];
    MergeAllFromEmpty(head, BestCountLists(after));
  }

  /** The fluts bought in all when schuur g buys choice[g] of them. */
  function Sum(choice: seq<int>): int
  {
    if choice == [] then 0 else Sum(choice[..|choice| - 1]) + choice[|choice| - 1]
  }

  /** choice picks one count from each list. */
  ghost predicate IsChoice(lists: seq<seq<int>>, choice: seq<int>)
  {
    |choice| == |lists| && forall g :: 0 <= g < |lists| ==> choice[g] in lists[g]
  }

  /** A choice from several lists is a choice from all but the last, plus a
      count of the last. */
  lemma ChoiceSplit(lists: seq<seq<int>>, choice: seq<int>)
    requires lists != [] && IsChoice(lists, choice)
    ensures IsChoice(lists[..|lists| - 1], choice[..|choice| - 1])
    ensures choice[|choice| - 1] in lists[|lists| - 1]
    ensures Sum(choice) == Sum(choice[..|choice| - 1]) + choice[|choice| - 1]
  {
  }

  lemma ChoiceExtend(init: seq<seq<int>>, last: seq<int>, before: seq<int>, n: int)
    requires IsChoice(init, before) && n in last
    ensures IsChoice(init + [last], before + [n])
    ensures Sum(before + [n]) == Sum(before) + n
  {
    assert (before + [n])[..|before|] == before;
  }

  /** When no list is empty, some choice exists. */
  lemma SomeChoice(lists: seq<seq<int>>)
    requires forall g :: 0 <= g < |lists| ==> lists[g] != []
    ensures exists choice :: IsChoice(lists, choice)
  {
    var some := seq(|lists|, g requires 0 <= g < |lists| => lists[g][0]);
    assert IsChoice(lists, some);
  }

  /** counts holds exactly the totals of the choices from lists. */
  ghost predicate HoldsAllChoices(lists: seq<seq<int>>, counts: seq<int>)
  {
    forall x :: x in counts <==> exists choice :: IsChoice(lists, choice) && Sum(choice) == x
  }

  lemma OneListChoices(last: seq<int>)
    ensures HoldsAllChoices([last], last)
  {
    var none: seq<seq<int>> := [];
    assert [last] == none + [last];
    forall x
      ensures x in last <==> exists choice :: IsChoice([last], choice) && Sum(choice) == x
    {
      if x in last {
        ChoiceExtend(none, last, [], x);
      }
      if exists choice :: IsChoice([last], choice) && Sum(choice) == x {
        var choice :| IsChoice([last], choice) && Sum(choice) == x;
        ChoiceSplit([last], choice);
      }
    }
  }

  lemma ChoicesStepForward(init: seq<seq<int>>, last: seq<int>, cur: seq<int>, x: int)
    requires HoldsAllChoices(init, cur)
    requires x in Product(last, cur)
    ensures exists choice :: IsChoice(init + [last], choice) && Sum(choice) == x
  {
    ProductMembers(last, cur);
    var a, n :| a in cur && n in last && x == a + n;
    var before :| IsChoice(init, before) && Sum(before) == a;
    ChoiceExtend(init, last, before, n);
  }

  lemma ChoicesStepBackward(init: seq<seq<int>>, last: seq<int>, cur: seq<int>, choice: seq<int>)
    requires HoldsAllChoices(init, cur)
    requires IsChoice(init + [last], choice)
    ensures Sum(choice) in Product(last, cur)
  {
    var lists, k := init + [last], |init|;
    assert lists[..k] == init && lists[k] == last;
    ChoiceSplit(lists, choice);
    var a, n := Sum(choice[..k]), choice[k];
    assert a in cur;
    ProductMembers(last, cur);
  }

  lemma ChoicesStep(init: seq<seq<int>>, last: seq<int>, cur: seq<int>)
    requires HoldsAllChoices(init, cur)
    ensures HoldsAllChoices(init + [last], Product(last, cur))
  {
    forall x
      ensures x in Product(last, cur) <==> exists choice :: IsChoice(init + [last], choice) && Sum(choice) == x
    {
      if x in Product(last, cur) {
        ChoicesStepForward(init, last, cur, x);
      }
      if exists choice :: IsChoice(init + [last], choice) && Sum(choice) == x {
        var choice :| IsChoice(init + [last], choice) && Sum(choice) == x;
        ChoicesStepBackward(init, last, cur, choice);
      }
    }
  }

  /** Merging lists none of which is empty gives exactly the totals of picking
      one count from each. */
  lemma {:induction false} MergeAllChoices(lists: seq<seq<int>>)
    requires lists != []
    requires forall g :: 0 <= g < |lists| ==> lists[g] != []
    ensures HoldsAllChoices(lists, MergeAll(lists))
  {
    var k := |lists| - 1;
    var init, last := lists[..k], lists[k];
    assert lists == init + [last];
    if k == 0 {
      assert lists == [last] && init == [];
      OneListChoices(last);
    } else {
      var cur := MergeAll(init);
      MergeAllChoices(init);
      SomeChoice(init);
      var some :| IsChoice(init, some);
      assert Sum(some) in cur;
      ChoicesStep(init, last, cur);
    }
  }

  /** When every schuur of a case has a best count, the combined list holds
      exactly the totals of buying one best count in each schuur. */
  lemma CombinedCountsAreChoices(schuurs: seq<seq<int>>)
    requires schuurs != []
    requires forall g :: 0 <= g < |schuurs| ==> BestCounts(schuurs[g]) != []
    ensures forall x :: x in CombinedCounts(schuurs) <==>
              exists choice :: IsChoice(BestCountLists(schuurs), choice) && Sum(choice) == x
  {
    MergeAllChoices(BestCountLists(schuurs));
  }

  /** With several schuurs, all with best counts, the combined list has one
      entry per choice: the product of their numbers of best counts. */
  function Size(lists: seq<seq<int>>): nat
  {
    if lists == [] then 1 else Size(lists[..|lists| - 1]) * |lists[|lists| - 1]|
  }

  lemma {:induction false} MergeAllSize(lists: seq<seq<int>>)
    requires lists != []
    requires forall g :: 0 <= g < |lists| ==> lists[g] != []
    ensures |MergeAll(lists)| == Size(lists)
  {
    var init := lists[..|lists| - 1];
    if init == [] {
      assert Size(init) == 1;
    } else {
      MergeAllSize(init);
      assert |MergeAll(init)| > 0 by {
        SomeChoice(init);
        var some :| IsChoice(init, some);
        MergeAllChoices(init);
        assert Sum(some) in MergeAll(init);
      }
    }
  }

  /** One entry of calculateProfit's outer loop: the per-schuur scan, the profit
      accumulated and the counts merged, schuur after schuur. */
  method CaseProfit(schuurs: seq<seq<int>>) returns (totalProfit: int, flutsCountToBuy: seq<int>)
    ensures totalProfit == TotalProfit(schuurs)
    ensures flutsCountToBuy == CombinedCounts(schuurs)
    ensures totalProfit >= 0
  {
    totalProfit := 0;
    flutsCountToBuy := [];
    var s := 0;
    while s < |schuurs|
      invariant 0 <= s <= |schuurs|
      invariant totalProfit == TotalProfit(schuurs[..s])
      invariant flutsCountToBuy == MergeAll(BestCountLists(schuurs[..s]))
    {
      var bestCurrentProfit, currentFlutsNumberToBuy := BestSchuurProfit(schuurs[s]);
      totalProfit := totalProfit + bestCurrentProfit;
      flutsCountToBuy := AdjustSchuurFlutCounts(flutsCountToBuy, currentFlutsNumberToBuy);
      CaseStep(schuurs, s);
      s := s + 1;
    }
    assert schuurs[..s] == schuurs;
    TotalProfitNonNegative(schuurs);
  }

  /** A case of two schuurs adds their best profits and merges their counts once. */
  lemma TwoSchuurs(first: seq<int>, second: seq<int>)
    ensures TotalProfit([first, second]) == BestProfit(first) + BestProfit(second)
    ensures CombinedCounts([first, second]) == AdjustedCounts(BestCounts(first), BestCounts(second))
  {
    assert [first, second][..1] == [first];
    SingleSchuur(first);
    assert BestCountLists([first, second])[..1] == BestCountLists([first]);
  }

  lemma MergeExample()
    ensures AdjustedCounts([3], [1, 2]) == [4, 5]
  {
    assert Shift([3], 1) == [4] && Shift([3], 2) == [5];
    assert [1, 2][..1] == [1];
    assert [1][..0] == [];
  }

  /** Two schuurs with piles 2 3 4 and 5 10 15: profit 21 + 5, and the counts
      3 + 1 and 3 + 2. */
  lemma TwoSchuursExample()
    ensures TotalProfit([[2, 3, 4], [5, 10, 15]]) == 26
    ensures CombinedCounts([[2, 3, 4], [5, 10, 15]]) == [4, 5]
  {
    TwoSchuurs([2, 3, 4], [5, 10, 15]);
    RisingPricesExample();
    TiedCountsExample();
    MergeExample();
  }
}
