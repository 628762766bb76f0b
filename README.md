# Fluts profit calculator, modelled in Dafny

The fluts calculator reads a sequence of cases. Each case is a number of
schuurs (stores). Each schuur has a pile of fluts, each flut carrying a
purchase price. Fluts are taken from the top of a pile only, so buying k fluts
from a schuur means buying the first k of its pile. Every flut bought is
resold for 10. For every case the calculator reports:

- the total profit: the sum of the schuurs' best profits;
- up to ten total numbers of fluts to buy, sorted without repeats. They are the
  first ten generated of the totals that pick one best count in each schuur.
  A schuur with no best count breaks this: see `LosingSchuurResets`
  below, after which the totals reported no longer reach the reported profit.

This project models `FlutsProfitCalculator`:

- **The per-schuur optimiser** (`GroupProfit`). It is the inner loop of
  `calculateProfit`, written as a method with loop invariants. It is proved
  equal to specification functions: `BestUpTo` is the best prefix profit, at
  least the baseline 0. `CountsWith` lists the prefix lengths that reach a
  given profit.
- **The cartesian merge of best-count lists** (`Combiner`). This is
  `adjustSchuurFlutCounts` as nested loops, plus the fold over a case's
  schuurs with the running total profit. When every schuur has a best count,
  the merged list holds exactly the totals of picking one best count per
  schuur. Its length is the product of the list sizes.
- **The `SchuurPojo` summary** (`SchuurCases`). `addCurrentFlutsCase` keeps
  the first ten counts generated and makes a `TreeSet` of them. A TreeSet is
  modelled as its ascending, duplicate-free sequence (`TreeSets`), which is
  canonical.
- **Pile validation** (`Validation`). The length mismatch is checked before
  zero prices; negative prices pass.
- **The calculator object** (`Calculator`). The `LinkedHashMap` from schuur
  count to price piles is a class field. It holds the map's entries in
  iteration order, and `put` follows the map's rules: an existing key keeps
  its position and takes the new value, a new key goes last. A later case
  with the same schuur count therefore replaces the earlier one in place.
  `StartCalculator` validates, collects and then calculates. The first
  invalid pile aborts the run, with the cases put before it still stored.

One behaviour of the source is recorded as a lemma, `Combiner.LosingSchuurResets`.
A schuur where every purchase loses money has no best count, because buying
nothing only ties the baseline and is never listed. Merging its empty list
empties the running list, wherever that schuur stands. The schuurs after it
then merge as if they came first, and the counts of the schuurs before it are
not added in. The reported profit still counts every
schuur.

## Model

| member | source | states |
|---|---|---|
| GroupProfit.BestUpTo | src/main/java/org/trade/fluts/calculator/FlutsProfitCalculator.java:94-111 | the best profit over the first m prefixes is at least 0, no prefix beats it, and unless it is 0 some prefix reaches it |
| GroupProfit.CountsWith | src/main/java/org/trade/fluts/calculator/FlutsProfitCalculator.java:104-111 | a count is listed exactly when it lies in 1..m and its profit equals b; the list is strictly increasing |
| GroupProfit.NoCountsAbove | src/main/java/org/trade/fluts/calculator/FlutsProfitCalculator.java:104-107 | no count reaches a profit above the best so far, so clearing the list on a strictly better profit loses nothing |
| GroupProfit.BestSchuurProfit | src/main/java/org/trade/fluts/calculator/FlutsProfitCalculator.java:85-112 | the scan returns the best profit and its counts; the profit is at least 0 and no count beats it; the counts are exactly those reaching it, ascending, and nonempty when the profit is positive |
| GroupProfit.BestCountsEmptyIff | src/main/java/org/trade/fluts/calculator/FlutsProfitCalculator.java:94-111 | a schuur's best-count list is empty exactly when every count has negative profit; a break-even count is listed |
| GroupProfit.RisingPricesExample | src/main/java/org/trade/fluts/calculator/FlutsProfitCalculator.java:98-111 | prices 2, 3, 4 give best profit 21 at 3 fluts |
| GroupProfit.TiedCountsExample | src/main/java/org/trade/fluts/calculator/FlutsProfitCalculator.java:104-110 | prices 5, 10, 15 give best profit 5, reached at 1 and at 2 fluts |
| Combiner.AdjustedCounts | src/main/java/org/trade/fluts/calculator/FlutsProfitCalculator.java:150-168 | an empty running list is replaced by the new list; otherwise the result has one entry per pair of a running count and a new count |
| Combiner.AdjustedCountAt | src/main/java/org/trade/fluts/calculator/FlutsProfitCalculator.java:160-164 | the entry at position i * (running length) + j is the running count j plus the new count i |
| Combiner.ProductMembers | src/main/java/org/trade/fluts/calculator/FlutsProfitCalculator.java:160-164 | the merged list holds exactly the sums of a running count and a new count |
| Combiner.NoNewCountsEmpties | src/main/java/org/trade/fluts/calculator/FlutsProfitCalculator.java:156-164 | merging a nonempty running list with an empty new list gives the empty list |
| Combiner.AdjustSchuurFlutCounts | src/main/java/org/trade/fluts/calculator/FlutsProfitCalculator.java:150-168 | the nested loops compute the merged list: the new list when the running one is empty, otherwise a list of the product's length |
| Combiner.TotalProfitNonNegative | src/main/java/org/trade/fluts/calculator/FlutsProfitCalculator.java:80-115 | the total profit of a case is never negative |
| Combiner.SingleSchuur | src/main/java/org/trade/fluts/calculator/FlutsProfitCalculator.java:115-118 | a case of one schuur reports that schuur's best profit and best counts |
| Combiner.LosingSchuurResets | src/main/java/org/trade/fluts/calculator/FlutsProfitCalculator.java:150-168 | a schuur with no best count, wherever it stands, empties the running list, so the case reports the counts merged from the schuurs after it alone |
| Combiner.MergeAllFromEmpty | src/main/java/org/trade/fluts/calculator/FlutsProfitCalculator.java:156-158 | once the running list is empty, merging further schuurs is the same as merging them from the start |
| Combiner.CombinedCountsAreChoices | src/main/java/org/trade/fluts/calculator/FlutsProfitCalculator.java:115-118 | when every schuur has a best count, the combined list holds exactly the totals of one best count per schuur |
| Combiner.MergeAllSize | src/main/java/org/trade/fluts/calculator/FlutsProfitCalculator.java:160-164 | when no list is empty, the merged list's length is the product of the list lengths |
| Combiner.CaseStep | src/main/java/org/trade/fluts/calculator/FlutsProfitCalculator.java:115-118 | one more schuur adds its best profit to the total and merges its best counts onto the running list |
| Combiner.CaseProfit | src/main/java/org/trade/fluts/calculator/FlutsProfitCalculator.java:80-119 | the per-entry loop returns the sum of the schuurs' best profits (never negative) and their merged counts |
| Combiner.TwoSchuurs | src/main/java/org/trade/fluts/calculator/FlutsProfitCalculator.java:115-118 | two schuurs add their best profits and merge their best counts once |
| Combiner.MergeExample | src/main/java/org/trade/fluts/calculator/FlutsProfitCalculator.java:160-164 | merging running list [3] with new counts [1, 2] gives [4, 5] |
| Combiner.TwoSchuursExample | src/main/java/org/trade/fluts/calculator/FlutsProfitCalculator.java:80-119 | piles 2 3 4 and 5 10 15 give total profit 26 and counts 4, 5 |
| TreeSets.Insert | src/main/java/org/trade/fluts/calculator/FlutsProfitCalculator.java:136-138 | adding to a sorted set keeps it sorted and duplicate-free and adds exactly that element |
| TreeSets.FromSeq | src/main/java/org/trade/fluts/calculator/FlutsProfitCalculator.java:136-138 | building a TreeSet from a list gives the list's elements, ascending and each once |
| TreeSets.Canonical | src/main/java/org/trade/fluts/utility/SchuurPojo.java:15 | two ascending duplicate-free sequences with the same elements are equal, so the set view is exact |
| SchuurCases.AddCurrentFlutsCase | src/main/java/org/trade/fluts/calculator/FlutsProfitCalculator.java:131-141 | the summary carries the schuur count and profit unchanged; it holds at most ten counts, ascending; with ten or more counts it holds the elements of the first ten, otherwise all of them |
| SchuurCases.FirstTenNotSmallestTen | src/main/java/org/trade/fluts/calculator/FlutsProfitCalculator.java:135-136 | of counts 11 down to 1, the summary keeps 2..11: the first ten generated, not the ten smallest |
| Validation.VerifyFlutsPileInput | src/main/java/org/trade/fluts/calculator/FlutsProfitCalculator.java:209-221 | a length mismatch is reported exactly when the length differs; a zero price exactly when the length matches and some price is 0; the pile passes exactly otherwise |
| Validation.LengthCheckedFirst | src/main/java/org/trade/fluts/calculator/FlutsProfitCalculator.java:210-219 | a short pile holding a 0 is reported as a length mismatch; a negative price passes |
| Calculator.Put | src/main/java/org/trade/fluts/calculator/FlutsProfitCalculator.java:63 | put keeps keys distinct; an existing key keeps its position and takes the new value, a new key is appended; every other entry is unchanged |
| Calculator.FirstPileError | src/main/java/org/trade/fluts/calculator/FlutsProfitCalculator.java:189-201 | no error is found exactly when every pile of the case passes validation; an error found is that of the first failing pile, every pile before it passing |
| Calculator.Collect | src/main/java/org/trade/fluts/calculator/FlutsProfitCalculator.java:42-65 | the map built by the reading loop keeps distinct keys |
| Calculator.CollectFailsIff | src/main/java/org/trade/fluts/calculator/FlutsProfitCalculator.java:58-63 | the run ends without error exactly when every pile of every case passes validation |
| Calculator.CollectStopsAtFirstFailure | src/main/java/org/trade/fluts/calculator/FlutsProfitCalculator.java:58-63 | at the first case holding an invalid pile the run stops with that case's first error, and the map is the one the cases before it built |
| Calculator.PutKeys | src/main/java/org/trade/fluts/calculator/FlutsProfitCalculator.java:63 | after put, every key is the key put or one the map already held |
| Calculator.CollectKeysRead | src/main/java/org/trade/fluts/calculator/FlutsProfitCalculator.java:42-65 | the final map holds no key other than those it held and the schuur counts read |
| Calculator.CollectKeepsPositions | src/main/java/org/trade/fluts/calculator/FlutsProfitCalculator.java:63 | reading more cases never moves an entry or drops a key |
| Calculator.CollectSplit | src/main/java/org/trade/fluts/calculator/FlutsProfitCalculator.java:42-65 | a run over cases a and then b, with no error in a, is the run over b from the map that a built |
| Calculator.KeepsPositionMidRun | src/main/java/org/trade/fluts/calculator/FlutsProfitCalculator.java:63 | at any point of a run, an entry already in the map keeps its key at its position to the end of the run |
| Calculator.RereadKeyKeepsFirstPosition | src/main/java/org/trade/fluts/calculator/FlutsProfitCalculator.java:57-63 | from the empty map, valid cases with schuur counts 3, 2, 3 leave key 3 first with the third case's piles, then key 2 |
| Calculator.UntouchedEntrySurvives | src/main/java/org/trade/fluts/calculator/FlutsProfitCalculator.java:63 | an entry whose key no later case uses keeps its piles to the end |
| Calculator.LastCaseWins | src/main/java/org/trade/fluts/calculator/FlutsProfitCalculator.java:57-63 | of cases sharing a schuur count, the last one read is the one stored |
| Calculator.CollectMatchesKeys | src/main/java/org/trade/fluts/calculator/FlutsProfitCalculator.java:57-63 | every stored entry holds as many piles as its key, none for a negative key |
| Calculator.SummaryCountsSchuurs | src/main/java/org/trade/fluts/calculator/FlutsProfitCalculator.java:121 | the reported schuur count of an entry with a positive key is the key |
| Calculator.SingleCaseRun | src/main/java/org/trade/fluts/calculator/FlutsProfitCalculator.java:57-63 | a run of one valid case stores its piles under its schuur count |
| Calculator.TwoSchuurCaseRun | src/main/java/org/trade/fluts/calculator/FlutsProfitCalculator.java:39-121 | one case of two schuurs with piles 2 3 4 and 5 10 15 passes validation, is stored under key 2, and reports profit 26 with 4 or 5 fluts |
| Calculator.SortedExample | src/main/java/org/trade/fluts/calculator/FlutsProfitCalculator.java:136-138 | the summary of counts [4, 5] is the set {4, 5} |
| Calculator.CalculateCase | src/main/java/org/trade/fluts/calculator/FlutsProfitCalculator.java:77-121 | an entry's summary carries the number of piles and the total profit, which is never negative, with the merged counts reduced to a set |
| Calculator.MapEntries | src/main/java/org/trade/fluts/calculator/FlutsProfitCalculator.java:77-122 | one summary per entry, in the map's iteration order |
| Calculator.FlutsProfitCalculator.constructor | src/main/java/org/trade/fluts/calculator/FlutsProfitCalculator.java:30 | a new calculator starts with an empty map |
| Calculator.FlutsProfitCalculator.StartCalculator | src/main/java/org/trade/fluts/calculator/FlutsProfitCalculator.java:39-66 | the map becomes what the reading loop builds; an invalid pile returns that error; otherwise one summary per stored entry, in iteration order |
| Calculator.FlutsProfitCalculator.CalculateProfit | src/main/java/org/trade/fluts/calculator/FlutsProfitCalculator.java:72-126 | one summary per map entry, in iteration order, each the summary of that entry's piles |

## Left out

- Console input and parsing are not modelled: the reader, the parser and `FlutPilePair`. Each case comes in as a number of schuurs and a list of (declared count, prices) piles. The parser's own errors (empty input, a non-integer) are not part of this model.
- The interactive do-while loop and its sentinel are not modelled as such. A schuur count of 0 ends the input, so `StartCalculator` takes the finished list of cases (none with count 0) and then calculates.
- Logging and `printExpectedProfits` are output only; `CalculateProfit` returns the summaries it would print.
- Exceptions become the error value of a `Result`; the stack trace and log line are not modelled.
- Java's 32-bit `int` arithmetic is not modelled: sums, profits and counts are mathematical integers, so a wrap-around on huge prices or counts is not captured.
- The `LinkedList`/`ArrayList` values are modelled as immutable sequences. When the running list is empty, `adjustSchuurFlutCounts` returns the schuur's own list object, but that list is fresh for each schuur and never changed afterwards, so the model loses no sharing.
- `addFluts` is folded into the inner reading loop of `StartCalculator`, with one validation per pile.
- The sell price is the constant 10, as in the source; it is not configurable.
