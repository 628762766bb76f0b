/** FlutsProfitCalculator: the schuur cases collected in a run, kept in a
    LinkedHashMap keyed by schuur count, and the summary computed for each. */
module Calculator {
  import opened Wrappers
  import opened Validation
  import opened Combiner
  import opened SchuurCases

  /** One fluts pile as read: the declared number of fluts and their prices. */
  datatype PileInput = PileInput(flutsCount: int, flutsPile: seq<int>)

  /** One case as read: its number of schuurs and one pile per schuur. */
  datatype CaseInput = CaseInput(schuursCount: int, piles: seq<PileInput>)

  /** What the reading loop hands over for a case: a count other than 0 (0 ends
      the input), and as many piles as the for loop over that count reads. */
  predicate WellFormedCase(c: CaseInput)
  {
    c.schuursCount != 0 && |c.piles| == (if c.schuursCount > 0 then c.schuursCount else 0)
  }

  /** An entry of schuurFlutCases: a schuur count and the price piles stored for it. */
  type Entry = (int, seq<seq<int>>)

  /** A map has one entry per key. */
  predicate DistinctKeys(cases: seq<Entry>)
  {
    forall i, j :: 0 <= i < j < |cases| ==> cases[i].0 != cases[j].0
  }

  predicate HasKey(cases: seq<Entry>, k: int)
  {
    exists i :: 0 <= i < |cases| && cases[i].0 == k
  }

  /** LinkedHashMap.put: an existing key keeps its place and gets the new value;
      a new key is appended last. */
  function Put(cases: seq<Entry>, k: int, v: seq<seq<int>>): (r: seq<Entry>)
    requires DistinctKeys(cases)
    ensures DistinctKeys(r)
    ensures HasKey(cases, k) ==> |r| == |cases|
    ensures !HasKey(cases, k) ==> |r| == |cases| + 1 && r[|cases|] == (k, v)
    ensures forall i :: 0 <= i < |cases| ==> r[i] == if cases[i].0 == k then (k, v) else cases[i]
  {
    if cases == [] then [(k, v)]
    else if cases[0].0 == k then [(k, v)] + cases[1..]
    else
      var rest := Put(cases[1..], k, v);
      assert HasKey(cases, k) <==> HasKey(cases[1..], k) by {
        if HasKey(cases, k) {
          var i :| 0 <= i < |cases| && cases[i].0 == k;
          assert cases[1..][i - 1].0 == k;
        }
        if HasKey(cases[1..], k) {
          var i :| 0 <= i < |cases[1..]| && cases[1..][i].0 == k;
          assert cases[i + 1].0 == k;
        }
      }
      [cases[0]] + rest
  }

  /** The pile at index i fails and every pile before it passes. */
  predicate FailsFirstAt(piles: seq<PileInput>, i: int, e: PileError)
  {
    0 <= i < |piles|
    && (forall j :: 0 <= j < i ==> VerifyFlutsPileInput(piles[j].flutsCount, piles[j].flutsPile) == Pass)
    && VerifyFlutsPileInput(piles[i].flutsCount, piles[i].flutsPile) == Fail(e)
  }

  /** The error addFluts throws first, reading the piles in order: none
      exactly when every pile passes, otherwise that of the first failing pile. */
  function FirstPileError(piles: seq<PileInput>): (r: Option<PileError>)
    ensures r == None <==>
              forall i :: 0 <= i < |piles| ==> VerifyFlutsPileInput(piles[i].flutsCount, piles[i].flutsPile) == Pass
    ensures r.Some? ==> exists i :: FailsFirstAt(piles, i, r.value)
  {
    if piles == [] then None
    else match VerifyFlutsPileInput(piles[0].flutsCount, piles[0].flutsPile)
      case Fail(e) =>
        assert FailsFirstAt(piles, 0, e);
        Some(e)
      case Pass =>
        var r := FirstPileError(piles[1..]);
        assert forall i :: 1 <= i < |piles| ==> piles[i] == piles[1..][i - 1];
        assert r.Some? ==> exists i :: FailsFirstAt(piles, i, r.value) by {
          if r.Some? {
            var i :| FailsFirstAt(piles[1..], i, r.value);
            assert FailsFirstAt(piles, i + 1, r.value);
          }
        }
        r
  }

  /** The prices of the piles of a case. */
  function Prices(piles: seq<PileInput>): seq<seq<int>>
  {
    seq(|piles|, i requires 0 <= i < |piles| => piles[i].flutsPile)
  }

  /** Reading one more pile of a case. */
  lemma PileStep(piles: seq<PileInput>, n: int)
    requires 0 <= n < |piles|
    ensures Prices(piles[..n + 1]) == Prices(piles[..n]) + [piles[n].flutsPile]
    ensures VerifyFlutsPileInput(piles[n].flutsCount, piles[n].flutsPile) == Pass ==>
              FirstPileError(piles[n..]) == FirstPileError(piles[n + 1..])
    ensures VerifyFlutsPileInput(piles[n].flutsCount, piles[n].flutsPile).Fail? ==>
              FirstPileError(piles[n..])
              == Some(VerifyFlutsPileInput(piles[n].flutsCount, piles[n].flutsPile).error)
  {
    assert piles[n..][1..] == piles[n + 1..];
  }

  /** Where reading the cases ends: the map built, and the error that stopped
      the run, if any. */
  datatype Collected = Collected(cases: seq<Entry>, failure: Option<PileError>)

  /** startCalculator's loop over the cases: a case is put once all its piles
      are read; an invalid pile stops the run before its case is put. */
  function Collect(cases: seq<Entry>, inputs: seq<CaseInput>): (c: Collected)
    requires DistinctKeys(cases)
    ensures DistinctKeys(c.cases)
    decreases |inputs|
  {
    if inputs == [] then Collected(cases, None)
    else match FirstPileError(inputs[0].piles)
      case Some(e) => Collected(cases, Some(e))
      case None => Collect(Put(cases, inputs[0].schuursCount, Prices(inputs[0].piles)), inputs[1..])
  }

  /** The summary calculateProfit reports for the schuurs of one entry. */
  function CaseSummary(schuurs: seq<seq<int>>): SchuurCase
  {
    AddCurrentFlutsCase(|schuurs|, TotalProfit(schuurs), CombinedCounts(schuurs))
  }

  /** The run fails exactly when some pile of some case fails validation. */
  lemma {:induction false} CollectFailsIff(cases: seq<Entry>, inputs: seq<CaseInput>)
    requires DistinctKeys(cases)
    ensures Collect(cases, inputs).failure == None <==>
              forall j :: 0 <= j < |inputs| ==> FirstPileError(inputs[j].piles) == None
    decreases |inputs|
  {
    if inputs != [] && FirstPileError(inputs[0].piles) == None {
      var next := Put(cases, inputs[0].schuursCount, Prices(inputs[0].piles));
      CollectFailsIff(next, inputs[1..]);
      assert forall j :: 1 <= j < |inputs| ==> inputs[j] == inputs[1..][j - 1];
    }
  }

  /** At the first case holding an invalid pile the run stops: the map is the
      one the cases before it built, and the error is that case's first. */
  lemma {:induction false} CollectStopsAtFirstFailure(cases: seq<Entry>, inputs: seq<CaseInput>, i: int)
    requires DistinctKeys(cases)
    requires 0 <= i < |inputs|
    requires forall j :: 0 <= j < i ==> FirstPileError(inputs[j].piles) == None
    requires FirstPileError(inputs[i].piles) != None
    ensures Collect(cases, inputs) == Collected(Collect(cases, inputs[..i]).cases, FirstPileError(inputs[i].piles))
    decreases |inputs|
  {
    if i > 0 {
      var next := Put(cases, inputs[0].schuursCount, Prices(inputs[0].piles));
      assert FirstPileError(inputs[0].piles) == None;
      assert inputs[..i][0] == inputs[0] && inputs[..i][1..] == inputs[1..][..i - 1];
      assert forall j :: 0 <= j < |inputs| - 1 ==> inputs[1..][j] == inputs[j + 1];
      CollectStopsAtFirstFailure(next, inputs[1..], i - 1);
    }
  }

  /** Every key put is an old key or the key given. */
  lemma PutKeys(cases: seq<Entry>, k: int, v: seq<seq<int>>)
    requires DistinctKeys(cases)
    ensures forall t :: 0 <= t < |Put(cases, k, v)| ==> Put(cases, k, v)[t].0 == k || HasKey(cases, Put(cases, k, v)[t].0)
  {
    var r := Put(cases, k, v);
    forall t | 0 <= t < |r|
      ensures r[t].0 == k || HasKey(cases, r[t].0)
    {
      if t < |cases| && cases[t].0 != k {
        assert r[t] == cases[t];
      }
    }
  }

  /** The map holds no key other than those it held and those read. */
  lemma {:induction false} CollectKeysRead(cases: seq<Entry>, inputs: seq<CaseInput>)
    requires DistinctKeys(cases)
    ensures forall t :: 0 <= t < |Collect(cases, inputs).cases| ==>
              HasKey(cases, Collect(cases, inputs).cases[t].0)
              || exists j :: 0 <= j < |inputs| && inputs[j].schuursCount == Collect(cases, inputs).cases[t].0
    decreases |inputs|
  {
    if inputs != [] && FirstPileError(inputs[0].piles) == None {
      var k := inputs[0].schuursCount;
      var next := Put(cases, k, Prices(inputs[0].piles));
      var r := Collect(next, inputs[1..]);
      assert r == Collect(cases, inputs);
      CollectKeysRead(next, inputs[1..]);
      PutKeys(cases, k, Prices(inputs[0].piles));
      forall t | 0 <= t < |r.cases|
        ensures HasKey(cases, r.cases[t].0) || exists j :: 0 <= j < |inputs| && inputs[j].schuursCount == r.cases[t].0
      {
        if HasKey(next, r.cases[t].0) {
          var u :| 0 <= u < |next| && next[u].0 == r.cases[t].0;
          if next[u].0 == k {
            assert inputs[0].schuursCount == r.cases[t].0;
          }
        } else {
          var j :| 0 <= j < |inputs[1..]| && inputs[1..][j].schuursCount == r.cases[t].0;
          assert inputs[j + 1].schuursCount == r.cases[t].0;
        }
      }
    }
  }

  /** Putting a case never moves an entry nor drops a key. */
  lemma {:induction false} CollectKeepsPositions(cases: seq<Entry>, inputs: seq<CaseInput>)
    requires DistinctKeys(cases)
    ensures |Collect(cases, inputs).cases| >= |cases|
    ensures forall t :: 0 <= t < |cases| ==> Collect(cases, inputs).cases[t].0 == cases[t].0
    decreases |inputs|
  {
    if inputs != [] && FirstPileError(inputs[0].piles) == None {
      var next := Put(cases, inputs[0].schuursCount, Prices(inputs[0].piles));
      CollectKeepsPositions(next, inputs[1..]);
    }
  }

  /** A run that reads a and then b without error is the run over a followed
      by the run over b from the map a built. */
  lemma {:induction false} CollectSplit(cases: seq<Entry>, a: seq<CaseInput>, b: seq<CaseInput>)
    requires DistinctKeys(cases)
    requires Collect(cases, a).failure == None
    ensures Collect(cases, a + b) == Collect(Collect(cases, a).cases, b)
    decreases |a|
  {
    if a == [] {
      assert a + b == b;
    } else {
      var next := Put(cases, a[0].schuursCount, Prices(a[0].piles));
      assert (a + b)[0] == a[0] && (a + b)[1..] == a[1..] + b;
      CollectSplit(next, a[1..], b);
    }
  }

  /** Wherever a run stands, an entry already in the map keeps its key at its
      position to the end: a key read again is overwritten in place, and new
      keys go after it. */
  lemma KeepsPositionMidRun(cases: seq<Entry>, a: seq<CaseInput>, b: seq<CaseInput>, t: int)
    requires DistinctKeys(cases)
    requires Collect(cases, a).failure == None
    requires 0 <= t < |Collect(cases, a).cases|
    ensures t < |Collect(cases, a + b).cases|
    ensures Collect(cases, a + b).cases[t].0 == Collect(cases, a).cases[t].0
  {
    CollectSplit(cases, a, b);
    CollectKeepsPositions(Collect(cases, a).cases, b);
  }

  /** From the empty map, valid cases with schuur counts 3, 2, 3: the map keeps
      key 3 first, holding the piles of the third case, and key 2 second. */
  lemma RereadKeyKeepsFirstPosition(first: CaseInput, second: CaseInput, third: CaseInput)
    requires first.schuursCount == 3 && second.schuursCount == 2 && third.schuursCount == 3
    requires FirstPileError(first.piles) == None && FirstPileError(second.piles) == None
    requires FirstPileError(third.piles) == None
    ensures Collect([], [first, second, third])
            == Collected([(3, Prices(third.piles)), (2, Prices(second.piles))], None)
  {
    var one := [(3, Prices(first.piles))];
    var two := one + [(2, Prices(second.piles))];
    assert Put([], 3, Prices(first.piles)) == one;
    assert Put(one, 2, Prices(second.piles)) == two by {
      assert !HasKey(one, 2);
    }
    var last := [(3, Prices(third.piles)), (2, Prices(second.piles))];
    assert Put(two, 3, Prices(third.piles)) == last;
    assert [first, second, third][1..] == [second, third];
    assert [second, third][1..] == [third];
    assert [third][1..] == [];
    assert Collect(last, []) == Collected(last, None);
    assert Collect(two, [third]) == Collect(last, []);
    assert Collect(one, [second, third]) == Collect(two, [third]);
  }

  /** An entry that no later case shares a key with survives to the end. */
  lemma {:induction false} UntouchedEntrySurvives(cases: seq<Entry>, inputs: seq<CaseInput>, t: int)
    requires DistinctKeys(cases) && 0 <= t < |cases|
    requires forall j :: 0 <= j < |inputs| ==> inputs[j].schuursCount != cases[t].0
    ensures t < |Collect(cases, inputs).cases| && Collect(cases, inputs).cases[t] == cases[t]
    decreases |inputs|
  {
    if inputs != [] && FirstPileError(inputs[0].piles) == None {
      var next := Put(cases, inputs[0].schuursCount, Prices(inputs[0].piles));
      UntouchedEntrySurvives(next, inputs[1..], t);
    }
  }

  /** Of cases sharing a schuur count, the last one read is the one calculated. */
  lemma {:induction false} LastCaseWins(cases: seq<Entry>, inputs: seq<CaseInput>, i: int)
    requires DistinctKeys(cases)
    requires Collect(cases, inputs).failure == None
    requires 0 <= i < |inputs|
    requires forall j :: i < j < |inputs| ==> inputs[j].schuursCount != inputs[i].schuursCount
    ensures exists t :: 0 <= t < |Collect(cases, inputs).cases|
                     && Collect(cases, inputs).cases[t] == (inputs[i].schuursCount, Prices(inputs[i].piles))
    decreases |inputs|
  {
    var next := Put(cases, inputs[0].schuursCount, Prices(inputs[0].piles));
    if i == 0 {
      var k, v := inputs[0].schuursCount, Prices(inputs[0].piles);
      var t :| 0 <= t < |next| && next[t] == (k, v) by {
        if HasKey(cases, k) {
          var s :| 0 <= s < |cases| && cases[s].0 == k;
          assert next[s] == (k, v);
        } else {
          assert next[|cases|] == (k, v);
        }
      }
      UntouchedEntrySurvives(next, inputs[1..], t);
    } else {
      LastCaseWins(next, inputs[1..], i - 1);
    }
  }

  /** Every entry of a map built from well-formed cases holds as many piles as
      its key says (none for a negative key). */
  predicate EntriesMatchKeys(cases: seq<Entry>)
  {
    forall t :: 0 <= t < |cases| ==> |cases[t].1| == if cases[t].0 > 0 then cases[t].0 else 0
  }

  lemma {:induction false} CollectMatchesKeys(cases: seq<Entry>, inputs: seq<CaseInput>)
    requires DistinctKeys(cases) && EntriesMatchKeys(cases)
    requires forall j :: 0 <= j < |inputs| ==> WellFormedCase(inputs[j])
    ensures EntriesMatchKeys(Collect(cases, inputs).cases)
    decreases |inputs|
  {
    if inputs != [] && FirstPileError(inputs[0].piles) == None {
      var next := Put(cases, inputs[0].schuursCount, Prices(inputs[0].piles));
      assert WellFormedCase(inputs[0]);
      CollectMatchesKeys(next, inputs[1..]);
    }
  }

  /** The run's summaries: a reported schuur count is always the number of
      piles of that entry, which for a positive key is the key itself. */
  lemma SummaryCountsSchuurs(cases: seq<Entry>, t: int)
    requires EntriesMatchKeys(cases) && 0 <= t < |cases| && cases[t].0 > 0
    ensures CaseSummary(cases[t].1).schuursCount == cases[t].0
  {
  }

  /** A run of a single valid case stores its piles under its schuur count. */
  lemma {:induction false} SingleCaseRun(input: CaseInput)
    requires FirstPileError(input.piles) == None
    ensures Collect([], [input]) == Collected([(input.schuursCount, Prices(input.piles))], None)
  {
    assert [input][1..] == [];
  }

  /** Two piles of three nonzero prices each, as declared, pass validation. */
  lemma TwoPilesPass()
    ensures FirstPileError([PileInput(3, [2, 3, 4]), PileInput(3, [5, 10, 15])]) == None
    ensures Prices([PileInput(3, [2, 3, 4]), PileInput(3, [5, 10, 15])]) == [[2, 3, 4], [5, 10, 15]]
  {
    var piles := [PileInput(3, [2, 3, 4]), PileInput(3, [5, 10, 15])];
    assert VerifyFlutsPileInput(3, [2, 3, 4]) == Pass;
    assert VerifyFlutsPileInput(3, [5, 10, 15]) == Pass;
  }

  /** One case of two schuurs with piles 2 3 4 and 5 10 15: it passes validation, and
      reports total profit 26 with 4 or 5 fluts to buy. */
  lemma TwoSchuurCaseRun()
    ensures Collect([], [CaseInput(2, [PileInput(3, [2, 3, 4]), PileInput(3, [5, 10, 15])])])
            == Collected([(2, [[2, 3, 4], [5, 10, 15]])], None)
    ensures CaseSummary([[2, 3, 4], [5, 10, 15]]) == SchuurCase(2, 26, [4, 5])
  {
    var piles := [PileInput(3, [2, 3, 4]), PileInput(3, [5, 10, 15])];
    TwoPilesPass();
    SingleCaseRun(CaseInput(2, piles));
    TwoSchuursExample();
    SortedExample();
  }

  lemma SortedExample()
    ensures AddCurrentFlutsCase(2, 26, [4, 5]) == SchuurCase(2, 26, [4, 5])
  {
    assert [4, 5][..1] == [4];
    assert [4][..0] == [];
  }

  /** The body of calculateProfit's loop for one entry: the schuurs' profits
      and counts combined, then turned into the reported summary. */
  method CalculateCase(schuurs: seq<seq<int>>) returns (flutsCase: SchuurCase)
    ensures flutsCase == CaseSummary(schuurs)
    ensures flutsCase.schuursCount == |schuurs| && flutsCase.schuurProfit == TotalProfit(schuurs)
    ensures flutsCase.schuurProfit >= 0
  {
    var totalProfit, flutsCountToBuy := CaseProfit(schuurs);
    flutsCase := AddCurrentFlutsCase(|schuurs|, totalProfit, flutsCountToBuy);
  }

  /** Applies summary to every entry's piles, keeping the entries' order. */
  function MapEntries(summary: seq<seq<int>> -> SchuurCase, cases: seq<Entry>): (r: seq<SchuurCase>)
    ensures |r| == |cases|
    ensures forall t :: 0 <= t < |cases| ==> r[t] == summary(cases[t].1)
  {
    if cases == [] then [] else MapEntries(summary, cases[..|cases| - 1]) + [summary(cases[|cases| - 1].1)]
  }

  /** The summaries of a map's entries, in iteration order. */
  function Summaries(cases: seq<Entry>): seq<SchuurCase>
  {
    MapEntries(CaseSummary, cases)
  }

  class FlutsProfitCalculator {
    /** The LinkedHashMap from schuur count to the piles of that case, as its
        entries in iteration order. */
    var schuurFlutCases: seq<Entry>

    ghost predicate Valid()
      reads this
    {
      DistinctKeys(schuurFlutCases)
    }

    constructor ()
      ensures Valid() && schuurFlutCases == []
    {
      schuurFlutCases := [];
    }

    /** startCalculator after the input is read: each case is validated pile by
        pile and put into the map; at the end every entry is calculated. An
        invalid pile aborts the run and leaves the cases put before it. */
    method StartCalculator(inputs: seq<CaseInput>) returns (result: Result<seq<SchuurCase>, PileError>)
      requires Valid()
      requires forall j :: 0 <= j < |inputs| ==> WellFormedCase(inputs[j])
      modifies this
      ensures Valid()
      ensures schuurFlutCases == Collect(old(schuurFlutCases), inputs).cases
      ensures Collect(old(schuurFlutCases), inputs).failure.Some? ==>
                result == Failure(Collect(old(schuurFlutCases), inputs).failure.value)
      ensures Collect(old(schuurFlutCases), inputs).failure.None? ==>
                result.Success? && |result.value| == |schuurFlutCases|
                && forall t :: 0 <= t < |schuurFlutCases| ==> result.value[t] == CaseSummary(schuurFlutCases[t].1)
    {
      var s := 0;
      while s < |inputs|
        invariant 0 <= s <= |inputs|
        invariant Valid()
        invariant Collect(old(schuurFlutCases), inputs) == Collect(schuurFlutCases, inputs[s..])
      {
        var input := inputs[s];
        assert WellFormedCase(input);
        var schuurFluts: seq<seq<int>> := [];
        var currentSchuur := 0;
        while currentSchuur < input.schuursCount
          invariant 0 <= currentSchuur <= |input.piles|
          invariant schuurFluts == Prices(input.piles[..currentSchuur])
          invariant FirstPileError(input.piles) == FirstPileError(input.piles[currentSchuur..])
          invariant Valid()
          invariant Collect(old(schuurFlutCases), inputs) == Collect(schuurFlutCases, inputs[s..])
        {
          // addFluts: the pile is checked before it is kept
          var pile := input.piles[currentSchuur];
          var outcome := VerifyFlutsPileInput(pile.flutsCount, pile.flutsPile);
          PileStep(input.piles, currentSchuur);
          if outcome.Fail? {
            assert inputs[s..][0] == input;
            assert FirstPileError(input.piles) == Some(outcome.error);
            assert Collect(schuurFlutCases, inputs[s..]) == Collected(schuurFlutCases, Some(outcome.error));
            return Failure(outcome.error);
          }
          schuurFluts := schuurFluts + [pile.flutsPile];
          currentSchuur := currentSchuur + 1;
        }
        assert input.piles[..currentSchuur] == input.piles;
        assert input.piles[currentSchuur..] == [];
        assert inputs[s..][1..] == inputs[s + 1..];
        schuurFlutCases := Put(schuurFlutCases, input.schuursCount, schuurFluts);
        s := s + 1;
      }
      var profits := CalculateProfit();
      return Success(profits);
    }

    /** calculateProfit without the printing: one summary per entry, in the
        map's iteration order. */
    method CalculateProfit() returns (profits: seq<SchuurCase>)
      ensures profits == Summaries(schuurFlutCases)
      ensures |profits| == |schuurFlutCases|
      ensures forall t :: 0 <= t < |schuurFlutCases| ==> profits[t] == CaseSummary(schuurFlutCases[t].1)
    {
      profits := [];
      var e := 0;
      while e < |schuurFlutCases|
        invariant 0 <= e <= |schuurFlutCases|
        invariant profits == Summaries(schuurFlutCases[..e])
      {
        var flutsCase := CalculateCase(schuurFlutCases[e].1);
        assert schuurFlutCases[..e + 1][..e] == schuurFlutCases[..e];
        assert Summaries(schuurFlutCases[..e + 1]) == Summaries(schuurFlutCases[..e]) + [CaseSummary(schuurFlutCases[e].1)];
        profits := profits + [flutsCase];
        e := e + 1;
      }
      assert schuurFlutCases[..e] == schuurFlutCases;
    }
  }
}
