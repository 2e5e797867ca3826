/**
 * The budget-bounded search of index.ts (`levenshteinImpl`) and its option-validating
 * entry point (`levenshtein`).
 */
module Levenshtein {
  import opened Wrappers
  import opened Utf16
  import opened EditDistance

  /** What the search is given: the two strings, the budget and the three operation costs. */
  datatype Config = Config(a: seq<CodeUnit>, b: seq<CodeUnit>, maxCost: real, costs: Costs)

  /** A total cost as the search reports it: itself if it fits the budget, `null` otherwise. */
  function Within(total: real, maxCost: real): Option<real>
  {
    if total <= maxCost then Some(total) else None
  }

  /**
   * The null-aware minimum the search folds its branch results with: a branch result
   * replaces the best so far when there is none yet, or when it is smaller.
   */
  function Better(best: Option<real>, result: Option<real>): (r: Option<real>)
    ensures r.None? <==> best.None? && result.None?
    ensures r.Some? ==> r == best || r == result
    ensures r.Some? && best.Some? ==> r.value <= best.value
    ensures r.Some? && result.Some? ==> r.value <= result.value
  {
    if best.None? || (result.Some? && result.value < best.value) then result else best
  }

  // ---------------------------------------------------------------------------
  // The search.

  /**
   * The search as a recursive function, one step per call: a free step over equal code
   * points under both cursors (the prefix skip), the accumulated `cost` once both strings
   * are consumed, and otherwise the best of the three steps, folded in the order
   * insertion, deletion, replacement. A result is either the cost it started with (no step
   * taken) or a cost that passed the inclusive budget test.
   */
  function Search(config: Config, i: nat, j: nat, cost: real): (r: Option<real>)
    requires i <= |config.a| && j <= |config.b|
    ensures r.Some? ==> r.value == cost || r.value <= config.maxCost
    decreases |config.a| - i + |config.b| - j, 1
  {
    if i < |config.a| && j < |config.b| && CodePointAt(config.a, i) == CodePointAt(config.b, j) then
      Search(config, i + Width(config.a, i), j + Width(config.b, j), cost)
    else if i == |config.a| && j == |config.b| then Some(cost)
    else
      Better(Better(InsertionStep(config, i, j, cost), DeletionStep(config, i, j, cost)),
             ReplacementStep(config, i, j, cost))
  }

  /** Consume the code point of `a` at `i` alone, if there is one and `insertionCost` fits the budget. */
  function InsertionStep(config: Config, i: nat, j: nat, cost: real): (r: Option<real>)
    requires i <= |config.a| && j <= |config.b|
    ensures r.Some? ==> r.value <= config.maxCost
    decreases |config.a| - i + |config.b| - j, 0
  {
    var newCost := cost + config.costs.insertion;
    if i < |config.a| && newCost <= config.maxCost then
      Search(config, i + Width(config.a, i), j, newCost)
    else None
  }

  /** Consume the code point of `b` at `j` alone, if there is one and `deletionCost` fits the budget. */
  function DeletionStep(config: Config, i: nat, j: nat, cost: real): (r: Option<real>)
    requires i <= |config.a| && j <= |config.b|
    ensures r.Some? ==> r.value <= config.maxCost
    decreases |config.a| - i + |config.b| - j, 0
  {
    var newCost := cost + config.costs.deletion;
    if j < |config.b| && newCost <= config.maxCost then
      Search(config, i, j + Width(config.b, j), newCost)
    else None
  }

  /** Consume one code point of each string, if both have one and `replacementCost` fits the budget. */
  function ReplacementStep(config: Config, i: nat, j: nat, cost: real): (r: Option<real>)
    requires i <= |config.a| && j <= |config.b|
    ensures r.Some? ==> r.value <= config.maxCost
    decreases |config.a| - i + |config.b| - j, 0
  {
    var newCost := cost + config.costs.replacement;
    if i < |config.a| && j < |config.b| && newCost <= config.maxCost then
      Search(config, i + Width(config.a, i), j + Width(config.b, j), newCost)
    else None
  }

  /** Past the prefix skip and short of the end, the search is the fold of its three steps. */
  lemma SearchBranches(config: Config, i: nat, j: nat, cost: real)
    requires i <= |config.a| && j <= |config.b|
    requires i < |config.a| || j < |config.b|
    requires i < |config.a| && j < |config.b| ==> CodePointAt(config.a, i) != CodePointAt(config.b, j)
    ensures Search(config, i, j, cost) ==
      Better(Better(InsertionStep(config, i, j, cost), DeletionStep(config, i, j, cost)),
             ReplacementStep(config, i, j, cost))
  {
  }

  /** Over equal code points the search takes its free step. */
  lemma SearchSkip(config: Config, i: nat, j: nat, cost: real)
    requires i < |config.a| && j < |config.b|
    requires CodePointAt(config.a, i) == CodePointAt(config.b, j)
    ensures Search(config, i, j, cost) == Search(config, i + Width(config.a, i), j + Width(config.b, j), cost)
  {
  }

  /** A common prefix followed by equal code points is a longer common prefix. */
  lemma CommonPrefixGrows(a: seq<CodeUnit>, aStart: nat, aIndex: nat, b: seq<CodeUnit>, bStart: nat, bIndex: nat)
    requires aStart <= aIndex < |a| && bStart <= bIndex < |b|
    requires a[aStart..aIndex] == b[bStart..bIndex]
    requires CodePointAt(a, aIndex) == CodePointAt(b, bIndex)
    ensures Width(a, aIndex) == Width(b, bIndex)
    ensures a[aStart..aIndex + Width(a, aIndex)] == b[bStart..bIndex + Width(b, bIndex)]
  {
    SameCodePointSameUnits(a, aIndex, b, bIndex);
    var w := Width(a, aIndex);
    assert a[aStart..aIndex + w] == a[aStart..aIndex] + a[aIndex..aIndex + w];
    assert b[bStart..bIndex + w] == b[bStart..bIndex] + b[bIndex..bIndex + w];
  }

  /**
   * One pass of the prefix skip over equal code points keeps everything the loop knows:
   * both cursors move by the same width, the passed units stay a common prefix, the passed
   * code points grow by the one under the cursors, and the search value is unchanged.
   */
  lemma SkipOne(config: Config, aStart: nat, bStart: nat, aIndex: nat, bIndex: nat, aNext: nat, bNext: nat,
                skipped: seq<int>, c: int, cost: real)
    requires aStart <= aIndex < |config.a| && bStart <= bIndex < |config.b|
    requires c == CodePointAt(config.a, aIndex) == CodePointAt(config.b, bIndex)
    requires aNext == aIndex + (if c > 0xFFFF then 2 else 1)
    requires bNext == bIndex + (if c > 0xFFFF then 2 else 1)
    requires config.a[aStart..aIndex] == config.b[bStart..bIndex]
    requires DecodeFrom(config.a, aStart) == skipped + DecodeFrom(config.a, aIndex)
    requires DecodeFrom(config.b, bStart) == skipped + DecodeFrom(config.b, bIndex)
    requires Search(config, aIndex, bIndex, cost) == Search(config, aStart, bStart, cost)
    ensures aNext <= |config.a| && bNext <= |config.b|
    ensures config.a[aStart..aNext] == config.b[bStart..bNext]
    ensures DecodeFrom(config.a, aStart) == (skipped + [c]) + DecodeFrom(config.a, aNext)
    ensures DecodeFrom(config.b, bStart) == (skipped + [c]) + DecodeFrom(config.b, bNext)
    ensures Search(config, aNext, bNext, cost) == Search(config, aStart, bStart, cost)
  {
    CommonPrefixGrows(config.a, aStart, aIndex, config.b, bStart, bIndex);
    SearchSkip(config, aIndex, bIndex, cost);
    DecodeAdvance(config.a, aStart, aIndex, aNext, skipped);
    DecodeAdvance(config.b, bStart, bIndex, bNext, skipped);
  }

  /**
   * The loop at the head of `levenshteinImpl`: while the code points under both cursors
   * are equal, both cursors advance by the same increment (2 for a supplementary code
   * point, 1 otherwise). The code points it passes over, `skipped`, begin both strings
   * and are spelt with the same units in each; it stops at the end of either string or at
   * the first differing code points, and the search from where it stops is the search
   * from where it started.
   */
  method SkipCommonPrefix(config: Config, aStart: nat, bStart: nat, ghost cost: real)
    returns (aIndex: nat, bIndex: nat, ghost skipped: seq<int>)
    requires aStart <= |config.a| && bStart <= |config.b|
    ensures aStart <= aIndex <= |config.a| && bStart <= bIndex <= |config.b|
    ensures aIndex - aStart == bIndex - bStart
    ensures config.a[aStart..aIndex] == config.b[bStart..bIndex]
    ensures DecodeFrom(config.a, aStart) == skipped + DecodeFrom(config.a, aIndex)
    ensures DecodeFrom(config.b, bStart) == skipped + DecodeFrom(config.b, bIndex)
    ensures aIndex < |config.a| && bIndex < |config.b| ==>
      CodePointAt(config.a, aIndex) != CodePointAt(config.b, bIndex)
    ensures Search(config, aIndex, bIndex, cost) == Search(config, aStart, bStart, cost)
  {
    var a, b := config.a, config.b;
    aIndex, bIndex, skipped := aStart, bStart, [];
    while aIndex < |a| && bIndex < |b|
      invariant aStart <= aIndex <= |a| && bStart <= bIndex <= |b|
      invariant DecodeFrom(a, aStart) == skipped + DecodeFrom(a, aIndex)
      invariant DecodeFrom(b, bStart) == skipped + DecodeFrom(b, bIndex)
      invariant aIndex - aStart == bIndex - bStart
      invariant a[aStart..aIndex] == b[bStart..bIndex]
      invariant Search(config, aIndex, bIndex, cost) == Search(config, aStart, bStart, cost)
      decreases |a| - aIndex
    {
      var aChar := CodePointAt(a, aIndex);
      var bChar := CodePointAt(b, bIndex);
      if aChar != bChar {
        break;
      }
      var increment := if aChar > 0xFFFF then 2 else 1;
      SkipOne(config, aStart, bStart, aIndex, bIndex, aIndex + increment, bIndex + increment, skipped, aChar, cost);
      skipped := skipped + [aChar];
      aIndex := aIndex + increment;
      bIndex := bIndex + increment;
    }
  }

  /**
   * `levenshteinImpl`. After skipping the common prefix, the search stops with `cost`
   * when both strings are consumed, and otherwise tries the three steps.
   */
  method LevenshteinImpl(config: Config, aStart: nat, bStart: nat, cost: real) returns (r: Option<real>)
    requires aStart <= |config.a| && bStart <= |config.b|
    ensures r == Search(config, aStart, bStart, cost)
    decreases |config.a| - aStart + |config.b| - bStart, 1
  {
    var aIndex, bIndex;
    ghost var skipped;
    aIndex, bIndex, skipped := SkipCommonPrefix(config, aStart, bStart, cost);
    if aIndex >= |config.a| && bIndex >= |config.b| {
      return Some(cost);
    }
    r := TrySteps(config, aIndex, bIndex, cost);
  }

  /**
   * The three branches of `levenshteinImpl` past the prefix skip: each step whose new cost
   * stays within `maxCost` continues the search, and the best result is kept, a later
   * branch replacing it only when it is smaller.
   */
  method TrySteps(config: Config, aIndex: nat, bIndex: nat, cost: real) returns (r: Option<real>)
    requires aIndex <= |config.a| && bIndex <= |config.b|
    requires aIndex < |config.a| || bIndex < |config.b|
    requires aIndex < |config.a| && bIndex < |config.b| ==>
      CodePointAt(config.a, aIndex) != CodePointAt(config.b, bIndex)
    ensures r == Search(config, aIndex, bIndex, cost)
    decreases |config.a| - aIndex + |config.b| - bIndex, 0
  {
    var bestResult: Option<real> := None;
    if aIndex < |config.a| {
      var newCost := cost + config.costs.insertion;
      if newCost <= config.maxCost {
        bestResult := LevenshteinImpl(config, aIndex + Width(config.a, aIndex), bIndex, newCost);
      }
    }
    assert bestResult == InsertionStep(config, aIndex, bIndex, cost);
    if bIndex < |config.b| {
      var newCost := cost + config.costs.deletion;
      if newCost <= config.maxCost {
        var result := LevenshteinImpl(config, aIndex, bIndex + Width(config.b, bIndex), newCost);
        assert result == DeletionStep(config, aIndex, bIndex, cost);
        if bestResult.None? || (result.Some? && result.value < bestResult.value) {
          bestResult := result;
        }
      }
    }
    assert bestResult == Better(InsertionStep(config, aIndex, bIndex, cost), DeletionStep(config, aIndex, bIndex, cost));
    ghost var soFar := bestResult;
    if aIndex < |config.a| && bIndex < |config.b| {
      var newCost := cost + config.costs.replacement;
      if newCost <= config.maxCost {
        var result := LevenshteinImpl(config, aIndex + Width(config.a, aIndex), bIndex + Width(config.b, bIndex), newCost);
        assert result == ReplacementStep(config, aIndex, bIndex, cost);
        if bestResult.None? || (result.Some? && result.value < bestResult.value) {
          bestResult := result;
        }
      }
    }
    assert bestResult == Better(soFar, ReplacementStep(config, aIndex, bIndex, cost));
    SearchBranches(config, aIndex, bIndex, cost);
    return bestResult;
  }

  // ---------------------------------------------------------------------------
  // What the search computes.

  /** The distance between what is left of `a` from unit `i` and of `b` from unit `j`. */
  function Remaining(config: Config, i: nat, j: nat): real
    requires i <= |config.a| && j <= |config.b|
    requires config.costs.NonNegative()
  {
    Distance(DecodeFrom(config.a, i), DecodeFrom(config.b, j), config.costs)
  }

  /** Decoding from a unit inside the string yields the code point there, then the rest after it. */
  lemma DecodeStep(s: seq<CodeUnit>, i: nat)
    requires i < |s|
    ensures DecodeFrom(s, i) == [CodePointAt(s, i)] + DecodeFrom(s, i + Width(s, i))
  {
  }

  /** Over equal code points the remaining distance does not change. */
  lemma RemainingSkip(config: Config, i: nat, j: nat)
    requires i < |config.a| && j < |config.b|
    requires config.costs.NonNegative()
    requires CodePointAt(config.a, i) == CodePointAt(config.b, j)
    ensures Remaining(config, i, j) == Remaining(config, i + Width(config.a, i), j + Width(config.b, j))
  {
    DecodeStep(config.a, i);
    DecodeStep(config.b, j);
    MatchFirst(DecodeFrom(config.a, i + Width(config.a, i)), DecodeFrom(config.b, j + Width(config.b, j)),
               CodePointAt(config.a, i), config.costs);
  }

  /**
   * Where the code points under the cursors differ, the remaining distance is the
   * smallest total over the steps that apply, a step on both being a replacement.
   */
  lemma RemainingUnfold(config: Config, i: nat, j: nat)
    requires i <= |config.a| && j <= |config.b|
    requires config.costs.NonNegative()
    requires i < |config.a| || j < |config.b|
    requires i < |config.a| && j < |config.b| ==> CodePointAt(config.a, i) != CodePointAt(config.b, j)
    ensures i == |config.a| ==>
      Remaining(config, i, j) == config.costs.deletion + Remaining(config, i, j + Width(config.b, j))
    ensures j == |config.b| ==>
      Remaining(config, i, j) == config.costs.insertion + Remaining(config, i + Width(config.a, i), j)
    ensures i < |config.a| && j < |config.b| ==>
      Remaining(config, i, j) ==
        Min(Min(config.costs.insertion + Remaining(config, i + Width(config.a, i), j),
                config.costs.deletion + Remaining(config, i, j + Width(config.b, j))),
            config.costs.replacement + Remaining(config, i + Width(config.a, i), j + Width(config.b, j)))
  {
    var a, b := DecodeFrom(config.a, i), DecodeFrom(config.b, j);
    if i < |config.a| {
      DecodeStep(config.a, i);
      assert a[1..] == DecodeFrom(config.a, i + Width(config.a, i));
    }
    if j < |config.b| {
      DecodeStep(config.b, j);
      assert b[1..] == DecodeFrom(config.b, j + Width(config.b, j));
    }
  }

  /** Folding two budgeted totals keeps the smaller total under the same budget. */
  lemma BetterWithin(x: real, y: real, maxCost: real)
    ensures Better(Within(x, maxCost), Within(y, maxCost)) == Within(Min(x, y), maxCost)
  {
  }

  /** Folding the three budgeted step totals keeps the cheapest step under the same budget. */
  lemma FoldWithin(cost: real, x: real, y: real, z: real, rest: real, maxCost: real)
    requires rest == Min(Min(x, y), z)
    ensures Better(Better(Within(cost + x, maxCost), Within(cost + y, maxCost)), Within(cost + z, maxCost))
            == Within(cost + rest, maxCost)
  {
    BetterWithin(cost + x, cost + y, maxCost);
    BetterWithin(Min(cost + x, cost + y), cost + z, maxCost);
  }

  /**
   * The search returns the remaining distance added to `cost` when that total is within
   * `maxCost`, and `null` when it is not. A step pruned because its new cost is over the
   * budget loses nothing: every total through it is over the budget as well.
   */
  lemma {:induction false} SearchIsBudgetedDistance(config: Config, i: nat, j: nat, cost: real)
    requires i <= |config.a| && j <= |config.b|
    requires config.costs.NonNegative()
    requires cost <= config.maxCost
    ensures Search(config, i, j, cost) == Within(cost + Remaining(config, i, j), config.maxCost)
    decreases |config.a| - i + |config.b| - j, 3
  {
    var a, b := config.a, config.b;
    if i < |a| && j < |b| && CodePointAt(a, i) == CodePointAt(b, j) {
      SearchIsBudgetedDistance(config, i + Width(a, i), j + Width(b, j), cost);
      RemainingSkip(config, i, j);
    } else if i == |a| && j == |b| {
      assert DecodeFrom(a, i) == [] && DecodeFrom(b, j) == [];
    } else {
      SearchBranches(config, i, j, cost);
      StepsAreBudgeted(config, i, j, cost);
    }
  }

  /**
   * The branching case of `SearchIsBudgetedDistance`: folding the three steps gives the
   * remaining distance added to `cost`, under the budget.
   */
  lemma {:induction false} StepsAreBudgeted(config: Config, i: nat, j: nat, cost: real)
    requires i <= |config.a| && j <= |config.b|
    requires config.costs.NonNegative()
    requires cost <= config.maxCost
    requires i < |config.a| || j < |config.b|
    requires i < |config.a| && j < |config.b| ==> CodePointAt(config.a, i) != CodePointAt(config.b, j)
    ensures Better(Better(InsertionStep(config, i, j, cost), DeletionStep(config, i, j, cost)),
                   ReplacementStep(config, i, j, cost))
            == Within(cost + Remaining(config, i, j), config.maxCost)
    decreases |config.a| - i + |config.b| - j, 2
  {
    if i < |config.a| && j < |config.b| {
      BothStepsAreBudgeted(config, i, j, cost);
    } else if i < |config.a| {
      RemainingUnfold(config, i, j);
      InsertionStepIsBudgeted(config, i, j, cost);
    } else {
      RemainingUnfold(config, i, j);
      DeletionStepIsBudgeted(config, i, j, cost);
    }
  }

  /** `StepsAreBudgeted` where both strings have code points left. */
  lemma {:induction false} BothStepsAreBudgeted(config: Config, i: nat, j: nat, cost: real)
    requires i < |config.a| && j < |config.b|
    requires config.costs.NonNegative()
    requires cost <= config.maxCost
    requires CodePointAt(config.a, i) != CodePointAt(config.b, j)
    ensures Better(Better(InsertionStep(config, i, j, cost), DeletionStep(config, i, j, cost)),
                   ReplacementStep(config, i, j, cost))
            == Within(cost + Remaining(config, i, j), config.maxCost)
    decreases |config.a| - i + |config.b| - j, 1
  {
    RemainingUnfold(config, i, j);
    InsertionStepIsBudgeted(config, i, j, cost);
    DeletionStepIsBudgeted(config, i, j, cost);
    ReplacementStepIsBudgeted(config, i, j, cost);
    FoldWithin(cost, config.costs.insertion + Remaining(config, i + Width(config.a, i), j),
               config.costs.deletion + Remaining(config, i, j + Width(config.b, j)),
               config.costs.replacement + Remaining(config, i + Width(config.a, i), j + Width(config.b, j)),
               Remaining(config, i, j), config.maxCost);
  }

  lemma {:induction false} InsertionStepIsBudgeted(config: Config, i: nat, j: nat, cost: real)
    requires i <= |config.a| && j <= |config.b|
    requires config.costs.NonNegative()
    requires cost <= config.maxCost
    ensures i < |config.a| ==>
      InsertionStep(config, i, j, cost) ==
        Within(cost + (config.costs.insertion + Remaining(config, i + Width(config.a, i), j)), config.maxCost)
    ensures i == |config.a| ==> InsertionStep(config, i, j, cost) == None
    decreases |config.a| - i + |config.b| - j, 0
  {
    if i < |config.a| && cost + config.costs.insertion <= config.maxCost {
      SearchIsBudgetedDistance(config, i + Width(config.a, i), j, cost + config.costs.insertion);
    }
  }

  lemma {:induction false} DeletionStepIsBudgeted(config: Config, i: nat, j: nat, cost: real)
    requires i <= |config.a| && j <= |config.b|
    requires config.costs.NonNegative()
    requires cost <= config.maxCost
    ensures j < |config.b| ==>
      DeletionStep(config, i, j, cost) ==
        Within(cost + (config.costs.deletion + Remaining(config, i, j + Width(config.b, j))), config.maxCost)
    ensures j == |config.b| ==> DeletionStep(config, i, j, cost) == None
    decreases |config.a| - i + |config.b| - j, 0
  {
    if j < |config.b| && cost + config.costs.deletion <= config.maxCost {
      SearchIsBudgetedDistance(config, i, j + Width(config.b, j), cost + config.costs.deletion);
    }
  }

  lemma {:induction false} ReplacementStepIsBudgeted(config: Config, i: nat, j: nat, cost: real)
    requires i <= |config.a| && j <= |config.b|
    requires config.costs.NonNegative()
    requires cost <= config.maxCost
    ensures i < |config.a| && j < |config.b| ==>
      ReplacementStep(config, i, j, cost) ==
        Within(cost + (config.costs.replacement + Remaining(config, i + Width(config.a, i), j + Width(config.b, j))),
               config.maxCost)
    ensures i == |config.a| || j == |config.b| ==> ReplacementStep(config, i, j, cost) == None
    decreases |config.a| - i + |config.b| - j, 0
  {
    if i < |config.a| && j < |config.b| && cost + config.costs.replacement <= config.maxCost {
      SearchIsBudgetedDistance(config, i + Width(config.a, i), j + Width(config.b, j), cost + config.costs.replacement);
    }
  }

  /**
   * With non-negative costs and a cost so far within the budget, a result found is at
   * least the cost so far and at most the budget.
   */
  lemma SearchBounds(config: Config, i: nat, j: nat, cost: real)
    requires i <= |config.a| && j <= |config.b|
    requires config.costs.NonNegative()
    requires cost <= config.maxCost
    ensures Search(config, i, j, cost).Some? ==>
      cost <= Search(config, i, j, cost).value <= config.maxCost
  {
    SearchIsBudgetedDistance(config, i, j, cost);
  }

  /**
   * Equal strings from the same cursor are consumed by the prefix skip alone, whatever
   * the budget: the search returns the accumulated cost.
   */
  lemma {:induction false} IdenticalSkipsToEnd(config: Config, i: nat, cost: real)
    requires config.a == config.b && i <= |config.a|
    ensures Search(config, i, i, cost) == Some(cost)
    decreases |config.a| - i
  {
    if i < |config.a| {
      IdenticalSkipsToEnd(config, i + Width(config.a, i), cost);
    }
  }

  /**
   * When even the cost so far is over the budget, no step is taken: only the prefix skip
   * runs, and the search returns `cost` exactly when what is left of the two strings has
   * the same code points, and `null` otherwise.
   */
  lemma {:induction false} NothingFits(config: Config, i: nat, j: nat, cost: real)
    requires i <= |config.a| && j <= |config.b|
    requires config.costs.NonNegative()
    requires config.maxCost < cost
    ensures Search(config, i, j, cost) ==
      if DecodeFrom(config.a, i) == DecodeFrom(config.b, j) then Some(cost) else None
    decreases |config.a| - i + |config.b| - j
  {
    var a, b := config.a, config.b;
    if i < |a| && j < |b| {
      DecodeStep(a, i);
      DecodeStep(b, j);
      assert DecodeFrom(a, i)[1..] == DecodeFrom(a, i + Width(a, i));
      assert DecodeFrom(b, j)[1..] == DecodeFrom(b, j + Width(b, j));
    }
    if i < |a| && j < |b| && CodePointAt(a, i) == CodePointAt(b, j) {
      NothingFits(config, i + Width(a, i), j + Width(b, j), cost);
    } else if i == |a| && j == |b| {
    } else {
      SearchBranches(config, i, j, cost);
      if i < |a| && j < |b| {
        assert DecodeFrom(a, i)[0] != DecodeFrom(b, j)[0];
      }
    }
  }

  /**
   * A budgeted total, read against edit scripts: `null` exactly when every script is over
   * the budget, otherwise the cost of the cheapest script.
   */
  lemma BudgetedMeaning(a: seq<int>, b: seq<int>, w: Weights, maxCost: real)
    ensures Within(Distance(a, b, w), maxCost).None? <==>
      forall p :: Transforms(a, b, p) ==> ScriptCost(p, w) > maxCost
    ensures Within(Distance(a, b, w), maxCost).Some? ==>
      var d := Within(Distance(a, b, w), maxCost).value;
      d <= maxCost &&
      (exists p :: Transforms(a, b, p) && ScriptCost(p, w) == d) &&
      (forall p :: Transforms(a, b, p) ==> d <= ScriptCost(p, w))
  {
    var best := OptimalScript(a, b, w);
    forall p | Transforms(a, b, p)
      ensures Distance(a, b, w) <= ScriptCost(p, w)
    {
      DistanceIsLowerBound(a, b, p, w);
    }
    if Distance(a, b, w) <= maxCost {
      assert Transforms(a, b, best) && ScriptCost(best, w) <= maxCost;
    }
  }

  /**
   * Raising `maxCost` never loses a result and never changes one that was found; a
   * result found under the larger budget that is within the smaller budget is found
   * under the smaller budget too.
   */
  lemma BudgetMonotone(config: Config, i: nat, j: nat, cost: real, larger: real)
    requires i <= |config.a| && j <= |config.b|
    requires config.costs.NonNegative()
    requires cost <= config.maxCost <= larger
    ensures Search(config, i, j, cost).Some? ==>
      Search(config.(maxCost := larger), i, j, cost) == Search(config, i, j, cost)
    ensures Search(config.(maxCost := larger), i, j, cost).Some? &&
            Search(config.(maxCost := larger), i, j, cost).value <= config.maxCost ==>
      Search(config, i, j, cost) == Search(config.(maxCost := larger), i, j, cost)
  {
    SearchIsBudgetedDistance(config, i, j, cost);
    SearchIsBudgetedDistance(config.(maxCost := larger), i, j, cost);
  }

  // ---------------------------------------------------------------------------
  // The entry point.

  /**
   * `LevenshteinOptions`. Each field may be absent (`undefined`); an absent operation cost
   * defaults to 1.
   */
  datatype Options = Options(maxCost: Option<real>, insertionCost: Option<real>, deletionCost: Option<real>,
                             replacementCost: Option<real>)

  /** The configuration error thrown for the first option that fails validation, with its value. */
  datatype ConfigError =
    | InvalidMaxCost(value: real)
    | InvalidInsertionCost(value: real)
    | InvalidDeletionCost(value: real)
    | InvalidReplacementCost(value: real)

  /** `isUndefinedOrPositive`: an absent option passes, a present one must be non-negative. */
  predicate IsUndefinedOrPositive(x: Option<real>)
  {
    x.None? || 0.0 <= x.value
  }

  /** Every option passes validation. */
  predicate Admissible(options: Options)
  {
    IsUndefinedOrPositive(options.maxCost) && IsUndefinedOrPositive(options.insertionCost)
    && IsUndefinedOrPositive(options.deletionCost) && IsUndefinedOrPositive(options.replacementCost)
  }

  /** The operation costs of admissible options, an absent one being 1. */
  function ResolvedCosts(options: Options): (w: Weights)
    requires Admissible(options)
    ensures options.insertionCost.Some? ==> w.insertion == options.insertionCost.value
    ensures options.insertionCost.None? ==> w.insertion == 1.0
    ensures options.deletionCost.Some? ==> w.deletion == options.deletionCost.value
    ensures options.deletionCost.None? ==> w.deletion == 1.0
    ensures options.replacementCost.Some? ==> w.replacement == options.replacementCost.value
    ensures options.replacementCost.None? ==> w.replacement == 1.0
  {
    Costs(options.insertionCost.GetOr(1.0), options.deletionCost.GetOr(1.0), options.replacementCost.GetOr(1.0))
  }

  /**
   * `levenshtein`. The options are validated in the order maxCost, insertionCost,
   * deletionCost, replacementCost, and the first invalid one is reported; otherwise the
   * search starts at the beginning of both strings with no cost spent. The result is the
   * weighted edit distance between the code points of `a` and `b` when it is within
   * `maxCost`, and `null` when it is not. An absent `maxCost` passes validation, but no
   * new cost compares as at most `undefined`, so then every step is pruned: the result is
   * 0 when the strings have the same code points and `null` otherwise.
   */
  method Levenshtein(a: seq<CodeUnit>, b: seq<CodeUnit>, options: Options)
    returns (r: Result<Option<real>, ConfigError>)
    ensures r.Success? <==> Admissible(options)
    ensures !IsUndefinedOrPositive(options.maxCost) ==> r == Failure(InvalidMaxCost(options.maxCost.value))
    ensures (IsUndefinedOrPositive(options.maxCost) && !IsUndefinedOrPositive(options.insertionCost)) ==>
      r == Failure(InvalidInsertionCost(options.insertionCost.value))
    ensures (IsUndefinedOrPositive(options.maxCost) && IsUndefinedOrPositive(options.insertionCost)
             && !IsUndefinedOrPositive(options.deletionCost)) ==>
      r == Failure(InvalidDeletionCost(options.deletionCost.value))
    ensures (IsUndefinedOrPositive(options.maxCost) && IsUndefinedOrPositive(options.insertionCost)
             && IsUndefinedOrPositive(options.deletionCost) && !IsUndefinedOrPositive(options.replacementCost)) ==>
      r == Failure(InvalidReplacementCost(options.replacementCost.value))
    ensures (Admissible(options) && options.maxCost.Some?) ==>
      r == Success(Within(Distance(Decode(a), Decode(b), ResolvedCosts(options)), options.maxCost.value))
    ensures (Admissible(options) && options.maxCost.None?) ==>
      r == Success(if Decode(a) == Decode(b) then Some(0.0) else None)
  {
    if !IsUndefinedOrPositive(options.maxCost) {
      return Failure(InvalidMaxCost(options.maxCost.value));
    }
    if !IsUndefinedOrPositive(options.insertionCost) {
      return Failure(InvalidInsertionCost(options.insertionCost.value));
    }
    if !IsUndefinedOrPositive(options.deletionCost) {
      return Failure(InvalidDeletionCost(options.deletionCost.value));
    }
    if !IsUndefinedOrPositive(options.replacementCost) {
      return Failure(InvalidReplacementCost(options.replacementCost.value));
    }
    // No comparison with an absent `maxCost` holds; with non-negative costs a negative
    // budget rejects every new cost the same way.
    var maxCost := if options.maxCost.Some? then options.maxCost.value else -1.0;
    var config := Config(a, b, maxCost, ResolvedCosts(options));
    var result := LevenshteinImpl(config, 0, 0, 0.0);
    if options.maxCost.Some? {
      SearchIsBudgetedDistance(config, 0, 0, 0.0);
    } else {
      NothingFits(config, 0, 0, 0.0);
    }
    return Success(result);
  }
}
