# levenshtein-ts, modelled in Dafny

This project models the core of the `levenshtein-ts` library (`index.ts`): a weighted
Levenshtein distance between two JavaScript strings with a cost budget. The distance is
counted over Unicode code points. A surrogate pair counts as one character.
Insertion, deletion and replacement have their own costs. The search gives up (`null`)
once every way of turning one string into the other costs more than `maxCost`.

Modules:

- `Wrappers` (`wrappers.dfy`): the `Option` and `Result` datatypes.
- `Utf16` (`utf16.dfy`): strings as sequences of 16-bit code units.
  - `CodePointAt` and `Width` model `codePointAt` and the cursor increment
    `1 + (codePoint > 0xFFFF)`.
  - `Decode` is the sequence of code points a cursor visits.
  - A round-trip lemma ties this decoding to the UTF-16 encoding (section 2 of RFC 2781).
- `EditDistance` (`edit_distance.dfy`): the reference definition, `Distance`. It is the
  textbook weighted recurrence over code points, with the step names the code uses:
  - a step that consumes only `a` costs `insertion`;
  - a step that consumes only `b` costs `deletion`;
  - a step that consumes one of each costs `replacement`, and nothing when they are equal.

  The module proves that `Distance` is the cost of a cheapest edit script. It also proves
  that matching a common prefix for free loses nothing. That is why the search may skip
  equal code points greedily.
- `Levenshtein` (`levenshtein.dfy`): the search `levenshteinImpl` and the entry point
  `levenshtein`.
  - `Search` is the search as a recursive function: the prefix skip, the stop at the end of
    both strings, and the three pruned branches folded in the source's order.
  - The loop of the source is the method `SkipCommonPrefix`.
  - The recursive search is the method `LevenshteinImpl`; its three branches are the method
    `TrySteps`. Both are proved equal to `Search`.
  - The chain of lemmas ending in `SearchIsBudgetedDistance` proves what `Search` returns:
    `cost + Distance(rest of a, rest of b)` when that total is within `maxCost`, and `null`
    otherwise.
  - `Levenshtein` is the entry point. It validates the options in the source's order
    (`isUndefinedOrPositive` is `IsUndefinedOrPositive`), defaults the absent costs to 1
    and starts the search. Its contract gives every error case, and the result on
    admissible options in terms of `Distance`.
- `Examples` (`examples.dfy`): each case of the repository's test suite (`index.test.ts`),
  proved from the contract of `Levenshtein`, plus three edge cases of the source.

Two behaviours of the code that are easy to misread:

- A step that advances only the cursor in `b` is charged `deletionCost`
  (`index.ts:46-60`), and one that advances only the cursor in `a` is charged
  `insertionCost` (`index.ts:33-45`). So `levenshtein("", S)` costs `deletionCost` per
  code point of `S`. `FromEmpty` and `ToEmpty` state this.
- An absent `maxCost` passes validation (`index.ts:82`, `index.ts:92`), but no
  `newCost <= maxCost` comparison then holds (`index.ts:35`, `index.ts:48`,
  `index.ts:63`). So every step is pruned: the result is 0 for strings with the same code
  points and `null` otherwise. `Levenshtein` and `NothingFits` state this.

## Model

| member | source | states |
|---|---|---|
| Utf16.CodePointAt | index.ts:24-25 | the code point under a cursor is above 0xFFFF exactly when a high surrogate is followed by a low surrogate; anything else, a lone surrogate included, is the unit itself; it never exceeds 0x10FFFF |
| Utf16.Width | index.ts:27 | the cursor increment is 2 exactly at a surrogate pair and 1 otherwise, so a step never splits a pair or leaves the string |
| Utf16.DecodeFrom | index.ts:23-30 | stepping by `Width` visits at most as many code points as there are units left, and none exactly at the end of the string |
| Utf16.DecodeWithoutSurrogates | index.ts:24-27 | a string without high surrogates is read one unit per code point |
| Utf16.DecodeEncode | index.ts:24-27 | round trip: stepping through the UTF-16 encoding of any sequence of scalar values yields exactly those values |
| Utf16.DecodeAdvance | index.ts:23-30 | a cursor that passes one code point moves that code point from what is left to decode to what was passed |
| Utf16.SameCodePointSameUnits | index.ts:24-27 | equal code points under two cursors are spelt with the same units and have the same width, so decoding a surrogate pair is injective |
| EditDistance.Distance | index.ts:31-78 | the cheapest total of insertion, deletion and replacement steps that consumes both sequences; never negative |
| EditDistance.DistanceIsLowerBound | index.ts:32-78 | no edit script that consumes both sequences costs less than `Distance` |
| EditDistance.OptimalScript | index.ts:32-78 | some edit script consumes both sequences at exactly `Distance`, so `Distance` is the minimum over all scripts |
| EditDistance.DropFrontOfB | index.ts:23-30 | removing a code point from the front of `b` raises the distance by at most one `insertion`: `Distance(a, b) <= insertion + Distance(a, [c] + b)` |
| EditDistance.DropFrontOfA | index.ts:23-30 | removing a code point from the front of `a` raises the distance by at most one `deletion`: `Distance(a, b) <= deletion + Distance([c] + a, b)` |
| EditDistance.MatchFirst | index.ts:23-30 | equal leading code points can be matched for free without losing optimality: the distance equals the distance of the rests |
| EditDistance.CommonPrefixIsFree | index.ts:23-30 | a common prefix of any length adds nothing to the distance |
| EditDistance.IdenticalIsFree | index.ts:31 | identical sequences are at distance 0 |
| EditDistance.FromEmpty | index.ts:46-60 | from an empty `a`, every code point of `b` costs `deletion` |
| EditDistance.ToEmpty | index.ts:33-45 | to an empty `b`, every code point of `a` costs `insertion` |
| EditDistance.SwapArguments | index.ts:33-60 | exchanging the two strings exchanges the roles of `insertion` and `deletion`, so with equal costs the distance is symmetric |
| Levenshtein.Search | index.ts:17-79 | the search as a function of the cursors and the cost so far; a result is the cost so far (both strings consumed) or a total that passed the `newCost <= maxCost` test, so it never exceeds `maxCost` unless it is the starting cost |
| Levenshtein.InsertionStep | index.ts:33-45 | the insertion branch: `null` at the end of `a` or when `cost + insertionCost` is over `maxCost`; any result is within `maxCost` |
| Levenshtein.DeletionStep | index.ts:46-60 | the deletion branch, charged `deletionCost` for a step in `b`: `null` at the end of `b` or over budget; any result is within `maxCost` |
| Levenshtein.ReplacementStep | index.ts:61-77 | the replacement branch: `null` unless both strings have code points left and `cost + replacementCost` is within `maxCost`; any result is within `maxCost` |
| Levenshtein.Better | index.ts:57-58 | the null-aware fold: `null` only when both inputs are, the result is one of the inputs, and it is no larger than either value present |
| Levenshtein.BetterWithin | index.ts:74-75 | folding two budgeted totals keeps the smaller total under the same budget |
| Levenshtein.FoldWithin | index.ts:46-77 | folding the three budgeted step totals is the budgeted cheapest step |
| Levenshtein.CommonPrefixGrows | index.ts:26-29 | a common prefix followed by equal code points, advanced by their common width, is still a common prefix |
| Levenshtein.SkipOne | index.ts:26-29 | one pass of the loop over equal code points keeps all that the loop knows: the same units passed in both strings, the passed code points a prefix of both decodings, the search value unchanged |
| Levenshtein.SkipCommonPrefix | index.ts:23-30 | the loop advances both cursors by the same amount over units that are a common prefix of both strings; the code points it passes, `skipped`, begin what both strings decode to from the starting cursors, so it stops only between code points, at the end of either string or at the first differing code points; the search result is unchanged |
| Levenshtein.TrySteps | index.ts:32-78 | after the prefix skip, the three branches tried in the source's order and folded with the null-aware minimum give exactly what `Search` returns |
| Levenshtein.LevenshteinImpl | index.ts:17-79 | the method returns exactly what `Search` returns from the same cursors and cost |
| Levenshtein.RemainingSkip | index.ts:23-30 | over equal code points the remaining distance does not change |
| Levenshtein.RemainingUnfold | index.ts:32-78 | where the code points differ, the remaining distance is the cheapest of the steps that apply: insertion alone at the end of `b`, deletion alone at the end of `a`, all three otherwise |
| Levenshtein.SearchIsBudgetedDistance | index.ts:17-79 | the search returns `cost` plus the distance of what is left of both strings when that total is within `maxCost`, and `null` when it is not; pruning a branch over the budget loses no result |
| Levenshtein.StepsAreBudgeted | index.ts:32-78 | the fold of the three branches is the budgeted remaining distance |
| Levenshtein.BothStepsAreBudgeted | index.ts:32-78 | the same where both strings have code points left |
| Levenshtein.InsertionStepIsBudgeted | index.ts:33-45 | the insertion branch is the budgeted total through one insertion, and `null` at the end of `a` |
| Levenshtein.DeletionStepIsBudgeted | index.ts:46-60 | the deletion branch is the budgeted total through one deletion, and `null` at the end of `b` |
| Levenshtein.ReplacementStepIsBudgeted | index.ts:61-77 | the replacement branch is the budgeted total through one replacement, and `null` when either string is exhausted |
| Levenshtein.SearchBounds | index.ts:31-78 | a result found is at least the cost so far and at most `maxCost` |
| Levenshtein.IdenticalSkipsToEnd | index.ts:23-31 | on identical strings the prefix skip alone reaches the end, whatever the budget, and returns the cost so far |
| Levenshtein.NothingFits | index.ts:31-78 | when even the cost so far is over budget, the search returns the cost exactly when the rests have the same code points, and `null` otherwise |
| Levenshtein.BudgetedMeaning | index.ts:17-79 | a budgeted distance is `null` exactly when every edit script costs more than `maxCost`; otherwise it is within `maxCost`, some script costs exactly that much and none costs less |
| Levenshtein.BudgetMonotone | index.ts:33-77 | raising `maxCost` keeps every result found unchanged, and a result found under a larger budget that is within the smaller budget is found under the smaller budget too |
| Levenshtein.IsUndefinedOrPositive | index.ts:81-85 | an absent option passes and a present one passes exactly when it is not negative |
| Levenshtein.ResolvedCosts | index.ts:111-113 | each operation cost is the option given, or 1 when it is absent |
| Levenshtein.Levenshtein | index.ts:87-119 | options are checked in the order maxCost, insertionCost, deletionCost, replacementCost, and the first negative one is reported with its value. With all options valid the result is the code-point distance under the resolved costs when within `maxCost`, and `null` otherwise. An absent `maxCost` gives 0 for equal code points and `null` otherwise |
| Examples.DistanceBetweenEmptyStringsIsZero | index.test.ts:29-33 | `levenshtein("", "", { maxCost: 3 })` is 0 |
| Examples.DistanceBetweenIdenticalStringsIsZero | index.test.ts:35-39 | `levenshtein("a", "a", { maxCost: 3 })` is 0 |
| Examples.OneInsertionHasCostOne | index.test.ts:41-45 | `levenshtein("", "a", { maxCost: 3 })` is 1 |
| Examples.OneDeletionHasCostOne | index.test.ts:47-51 | `levenshtein("a", "", { maxCost: 3 })` is 1 |
| Examples.OneReplacementHasCostOne | index.test.ts:53-57 | `levenshtein("a", "b", { maxCost: 3 })` is 1 |
| Examples.CanInsertAtTheStart | index.test.ts:59-63 | `levenshtein("box", "abox", { maxCost: 3 })` is 1 |
| Examples.CanInsertAtTheEnd | index.test.ts:65-69 | `levenshtein("box", "boxa", { maxCost: 3 })` is 1 |
| Examples.CanDeleteAtTheStart | index.test.ts:71-75 | `levenshtein("box", "ox", { maxCost: 3 })` is 1 |
| Examples.CanDeleteAtTheEnd | index.test.ts:77-81 | `levenshtein("box", "bo", { maxCost: 3 })` is 1 |
| Examples.CanReplaceAtTheStart | index.test.ts:83-87 | `levenshtein("box", "fox", { maxCost: 3 })` is 1 |
| Examples.CanReplaceAtTheEnd | index.test.ts:89-93 | `levenshtein("box", "bog", { maxCost: 3 })` is 1 |
| Examples.CanHaveACostGreaterThanOne | index.test.ts:95-99 | `levenshtein("box", "rot", { maxCost: 3 })` is 2 |
| Examples.CanLimitInsertionCostUsingMaxCost | index.test.ts:101-105 | `levenshtein("box", "bzozx", { maxCost: 1 })` is `null` |
| Examples.InsertionWithinMaxCost | index.test.ts:107-114 | `levenshtein("box", "bzozx", { maxCost: 2 })` is 2 |
| Examples.CanLimitDeletionCostUsingMaxCost | index.test.ts:116-120 | `levenshtein("water", "wtr", { maxCost: 1 })` is `null` |
| Examples.DeletionWithinMaxCost | index.test.ts:122-126 | `levenshtein("water", "wtr", { maxCost: 2 })` is 2 |
| Examples.CanLimitReplacementCostUsingMaxCost | index.test.ts:128-132 | `levenshtein("box", "rot", { maxCost: 1 })` is `null` |
| Examples.ReplacementWithinMaxCost | index.test.ts:134-138 | `levenshtein("box", "rot", { maxCost: 2 })` is 2 |
| Examples.CanSetInsertionCost | index.test.ts:140-144 | `levenshtein("water", "hwage", { maxCost: 4, insertionCost: 0.75 })` is 2.75 |
| Examples.CanSetDeletionCost | index.test.ts:146-150 | `levenshtein("water", "hwage", { maxCost: 4, deletionCost: 1.25 })` is 3.25 |
| Examples.CanSetReplacementCost | index.test.ts:152-156 | `levenshtein("water", "hwage", { maxCost: 4, replacementCost: 1.5 })` is 3.5 |
| Examples.SurrogatePairIsOneCharacter | index.ts:24-27 | a surrogate pair against one BMP character is one replacement (cost 1), not a replacement and an insertion |
| Examples.AbsentMaxCostPrunesEveryStep | index.ts:92-93 | `"a"` against `"b"` with no `maxCost` passes validation and gives `null` |
| Examples.AbsentMaxCostStillSkipsEqualStrings | index.ts:23-31 | `"box"` against `"box"` with no `maxCost` gives 0 through the prefix skip alone |

## Left out

- Floating point: costs, totals and budgets are exact reals. JavaScript adds IEEE doubles,
  so a sum such as `0.1 + 0.2` may round and land on the other side of `maxCost`. The
  costs in the test suite (0.75, 1.25, 1.5 and whole numbers) are exactly representable,
  so their sums do not round.
- `IsUndefinedOrPositive`: the `isFinite` test (`index.ts:83`) is not modelled, because
  reals have no `NaN` or `Infinity`. Options that are not numbers at all, and an `options`
  argument that is itself `undefined`, are left out for the same reason: the model's
  `Options` is typed.
- Errors are `Failure` values that name the invalid option and carry its value. The text of
  the thrown `Error` is not modelled.
- Strings enter the model as sequences of UTF-16 code units; how JavaScript stores a
  string is not modelled.
- Running time, the exponential size of the search tree and the depth of the recursion
  (stack overflow on long strings) are not modelled.
- SearchIsBudgetedDistance: stated only for non-negative costs and a cost so far within
  `maxCost`. With a negative cost, pruning on the running total could cut off a cheaper
  completion. `Levenshtein` meets both conditions, because it rejects negative options and
  starts at cost 0 with a non-negative `maxCost`.
- SearchBounds: stated under the same two conditions as `SearchIsBudgetedDistance`.
- BudgetMonotone: stated under the same two conditions as `SearchIsBudgetedDistance`.
- NothingFits: stated only when the cost so far is already over `maxCost`. That is the case
  the entry point reaches with an absent `maxCost`, which the model runs with a negative
  budget that no new cost satisfies.
