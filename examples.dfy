/**
 * The cases of the repository's test suite (index.test.ts), each stated as a call of the
 * entry point on the UTF-16 code units of the test's strings and proved to give the
 * expected result. The distances are established bottom-up, suffix pair by suffix pair.
 */
module Examples {
  import opened Wrappers
  import opened Utf16
  import opened EditDistance
  import opened Levenshtein

  /** "" against "" with { maxCost: 3 }: distance between empty strings is zero. */
  method DistanceBetweenEmptyStringsIsZero(a: seq<CodeUnit>, b: seq<CodeUnit>) returns (r: Result<Option<real>, ConfigError>)
    requires a == [] && b == []
    ensures r == Success(Some(0.0))
  {
    r := Levenshtein.Levenshtein(a, b, Options(Some(3.0), None, None, None));
    DecodeWithoutSurrogates(a, 0);
    DecodeWithoutSurrogates(b, 0);
  }

  /** "a" against "a" with { maxCost: 3 }: distance between identical strings is zero. */
  method DistanceBetweenIdenticalStringsIsZero(a: seq<CodeUnit>, b: seq<CodeUnit>) returns (r: Result<Option<real>, ConfigError>)
    requires a == [97] && b == [97]
    ensures r == Success(Some(0.0))
  {
    r := Levenshtein.Levenshtein(a, b, Options(Some(3.0), None, None, None));
    DecodeWithoutSurrogates(a, 0);
    DecodeWithoutSurrogates(b, 0);
    ghost var w := ResolvedCosts(Options(Some(3.0), None, None, None));
    assert Distance(a[1..], b, w) == 1.0;
    assert Distance(a, b[1..], w) == 1.0;
    assert Distance(a, b, w) == 0.0;
  }

  /** "" against "a" with { maxCost: 3 }: one insertion has cost 1. */
  method OneInsertionHasCostOne(a: seq<CodeUnit>, b: seq<CodeUnit>) returns (r: Result<Option<real>, ConfigError>)
    requires a == [] && b == [97]
    ensures r == Success(Some(1.0))
  {
    r := Levenshtein.Levenshtein(a, b, Options(Some(3.0), None, None, None));
    DecodeWithoutSurrogates(a, 0);
    DecodeWithoutSurrogates(b, 0);
    ghost var w := ResolvedCosts(Options(Some(3.0), None, None, None));
    assert Distance(a, b, w) == 1.0;
  }

  /** "a" against "" with { maxCost: 3 }: one deletion has cost 1. */
  method OneDeletionHasCostOne(a: seq<CodeUnit>, b: seq<CodeUnit>) returns (r: Result<Option<real>, ConfigError>)
    requires a == [97] && b == []
    ensures r == Success(Some(1.0))
  {
    r := Levenshtein.Levenshtein(a, b, Options(Some(3.0), None, None, None));
    DecodeWithoutSurrogates(a, 0);
    DecodeWithoutSurrogates(b, 0);
    ghost var w := ResolvedCosts(Options(Some(3.0), None, None, None));
    assert Distance(a, b, w) == 1.0;
  }

  /** "a" against "b" with { maxCost: 3 }: one replacement has cost 1. */
  method OneReplacementHasCostOne(a: seq<CodeUnit>, b: seq<CodeUnit>) returns (r: Result<Option<real>, ConfigError>)
    requires a == [97] && b == [98]
    ensures r == Success(Some(1.0))
  {
    r := Levenshtein.Levenshtein(a, b, Options(Some(3.0), None, None, None));
    DecodeWithoutSurrogates(a, 0);
    DecodeWithoutSurrogates(b, 0);
    ghost var w := ResolvedCosts(Options(Some(3.0), None, None, None));
    assert Distance(a[1..], b, w) == 1.0;
    assert Distance(a, b[1..], w) == 1.0;
    assert Distance(a, b, w) == 1.0;
  }

  /** "box" against "abox" with { maxCost: 3 }: can insert at the start. */
  method CanInsertAtTheStart(a: seq<CodeUnit>, b: seq<CodeUnit>) returns (r: Result<Option<real>, ConfigError>)
    requires a == [98, 111, 120] && b == [97, 98, 111, 120]
    ensures r == Success(Some(1.0))
  {
    r := Levenshtein.Levenshtein(a, b, Options(Some(3.0), None, None, None));
    DecodeWithoutSurrogates(a, 0);
    DecodeWithoutSurrogates(b, 0);
    ghost var w := ResolvedCosts(Options(Some(3.0), None, None, None));
    assert Distance(a[3..], b[3..], w) == 1.0;
    assert Distance(a[3..], b[2..], w) == 2.0;
    assert Distance(a[3..], b[1..], w) == 3.0;
    assert Distance(a[3..], b, w) == 4.0;
    assert Distance(a[2..], b[4..], w) == 1.0;
    assert Distance(a[2..], b[3..], w) == 0.0;
    assert Distance(a[2..], b[2..], w) == 1.0;
    assert Distance(a[2..], b[1..], w) == 2.0;
    assert Distance(a[2..], b, w) == 3.0;
    assert Distance(a[1..], b[4..], w) == 2.0;
    assert Distance(a[1..], b[3..], w) == 1.0;
    assert Distance(a[1..], b[2..], w) == 0.0;
    assert Distance(a[1..], b[1..], w) == 1.0;
    assert Distance(a[1..], b, w) == 2.0;
    assert Distance(a, b[4..], w) == 3.0;
    assert Distance(a, b[3..], w) == 2.0;
    assert Distance(a, b[2..], w) == 1.0;
    assert Distance(a, b[1..], w) == 0.0;
    assert Distance(a, b, w) == 1.0;
  }

  /** "box" against "boxa" with { maxCost: 3 }: can insert at the end. */
  method CanInsertAtTheEnd(a: seq<CodeUnit>, b: seq<CodeUnit>) returns (r: Result<Option<real>, ConfigError>)
    requires a == [98, 111, 120] && b == [98, 111, 120, 97]
    ensures r == Success(Some(1.0))
  {
    r := Levenshtein.Levenshtein(a, b, Options(Some(3.0), None, None, None));
    DecodeWithoutSurrogates(a, 0);
    DecodeWithoutSurrogates(b, 0);
    ghost var w := ResolvedCosts(Options(Some(3.0), None, None, None));
    assert Distance(a[3..], b[3..], w) == 1.0;
    assert Distance(a[3..], b[2..], w) == 2.0;
    assert Distance(a[3..], b[1..], w) == 3.0;
    assert Distance(a[3..], b, w) == 4.0;
    assert Distance(a[2..], b[4..], w) == 1.0;
    assert Distance(a[2..], b[3..], w) == 1.0;
    assert Distance(a[2..], b[2..], w) == 1.0;
    assert Distance(a[2..], b[1..], w) == 2.0;
    assert Distance(a[2..], b, w) == 3.0;
    assert Distance(a[1..], b[4..], w) == 2.0;
    assert Distance(a[1..], b[3..], w) == 2.0;
    assert Distance(a[1..], b[2..], w) == 2.0;
    assert Distance(a[1..], b[1..], w) == 1.0;
    assert Distance(a[1..], b, w) == 2.0;
    assert Distance(a, b[4..], w) == 3.0;
    assert Distance(a, b[3..], w) == 3.0;
    assert Distance(a, b[2..], w) == 3.0;
    assert Distance(a, b[1..], w) == 2.0;
    assert Distance(a, b, w) == 1.0;
  }

  /** "box" against "ox" with { maxCost: 3 }: can delete at the start. */
  method CanDeleteAtTheStart(a: seq<CodeUnit>, b: seq<CodeUnit>) returns (r: Result<Option<real>, ConfigError>)
    requires a == [98, 111, 120] && b == [111, 120]
    ensures r == Success(Some(1.0))
  {
    r := Levenshtein.Levenshtein(a, b, Options(Some(3.0), None, None, None));
    DecodeWithoutSurrogates(a, 0);
    DecodeWithoutSurrogates(b, 0);
    ghost var w := ResolvedCosts(Options(Some(3.0), None, None, None));
    assert Distance(a[3..], b[1..], w) == 1.0;
    assert Distance(a[3..], b, w) == 2.0;
    assert Distance(a[2..], b[2..], w) == 1.0;
    assert Distance(a[2..], b[1..], w) == 0.0;
    assert Distance(a[2..], b, w) == 1.0;
    assert Distance(a[1..], b[2..], w) == 2.0;
    assert Distance(a[1..], b[1..], w) == 1.0;
    assert Distance(a[1..], b, w) == 0.0;
    assert Distance(a, b[2..], w) == 3.0;
    assert Distance(a, b[1..], w) == 2.0;
    assert Distance(a, b, w) == 1.0;
  }

  /** "box" against "bo" with { maxCost: 3 }: can delete at the end. */
  method CanDeleteAtTheEnd(a: seq<CodeUnit>, b: seq<CodeUnit>) returns (r: Result<Option<real>, ConfigError>)
    requires a == [98, 111, 120] && b == [98, 111]
    ensures r == Success(Some(1.0))
  {
    r := Levenshtein.Levenshtein(a, b, Options(Some(3.0), None, None, None));
    DecodeWithoutSurrogates(a, 0);
    DecodeWithoutSurrogates(b, 0);
    ghost var w := ResolvedCosts(Options(Some(3.0), None, None, None));
    assert Distance(a[3..], b[1..], w) == 1.0;
    assert Distance(a[3..], b, w) == 2.0;
    assert Distance(a[2..], b[2..], w) == 1.0;
    assert Distance(a[2..], b[1..], w) == 1.0;
    assert Distance(a[2..], b, w) == 2.0;
    assert Distance(a[1..], b[2..], w) == 2.0;
    assert Distance(a[1..], b[1..], w) == 1.0;
    assert Distance(a[1..], b, w) == 2.0;
    assert Distance(a, b[2..], w) == 3.0;
    assert Distance(a, b[1..], w) == 2.0;
    assert Distance(a, b, w) == 1.0;
  }

  /** "box" against "fox" with { maxCost: 3 }: can replace at the start. */
  method CanReplaceAtTheStart(a: seq<CodeUnit>, b: seq<CodeUnit>) returns (r: Result<Option<real>, ConfigError>)
    requires a == [98, 111, 120] && b == [102, 111, 120]
    ensures r == Success(Some(1.0))
  {
    r := Levenshtein.Levenshtein(a, b, Options(Some(3.0), None, None, None));
    DecodeWithoutSurrogates(a, 0);
    DecodeWithoutSurrogates(b, 0);
    ghost var w := ResolvedCosts(Options(Some(3.0), None, None, None));
    assert Distance(a[3..], b[2..], w) == 1.0;
    assert Distance(a[3..], b[1..], w) == 2.0;
    assert Distance(a[3..], b, w) == 3.0;
    assert Distance(a[2..], b[3..], w) == 1.0;
    assert Distance(a[2..], b[2..], w) == 0.0;
    assert Distance(a[2..], b[1..], w) == 1.0;
    assert Distance(a[2..], b, w) == 2.0;
    assert Distance(a[1..], b[3..], w) == 2.0;
    assert Distance(a[1..], b[2..], w) == 1.0;
    assert Distance(a[1..], b[1..], w) == 0.0;
    assert Distance(a[1..], b, w) == 1.0;
    assert Distance(a, b[3..], w) == 3.0;
    assert Distance(a, b[2..], w) == 2.0;
    assert Distance(a, b[1..], w) == 1.0;
    assert Distance(a, b, w) == 1.0;
  }

  /** "box" against "bog" with { maxCost: 3 }: can replace at the end. */
  method CanReplaceAtTheEnd(a: seq<CodeUnit>, b: seq<CodeUnit>) returns (r: Result<Option<real>, ConfigError>)
    requires a == [98, 111, 120] && b == [98, 111, 103]
    ensures r == Success(Some(1.0))
  {
    r := Levenshtein.Levenshtein(a, b, Options(Some(3.0), None, None, None));
    DecodeWithoutSurrogates(a, 0);
    DecodeWithoutSurrogates(b, 0);
    ghost var w := ResolvedCosts(Options(Some(3.0), None, None, None));
    assert Distance(a[3..], b[2..], w) == 1.0;
    assert Distance(a[3..], b[1..], w) == 2.0;
    assert Distance(a[3..], b, w) == 3.0;
    assert Distance(a[2..], b[3..], w) == 1.0;
    assert Distance(a[2..], b[2..], w) == 1.0;
    assert Distance(a[2..], b[1..], w) == 2.0;
    assert Distance(a[2..], b, w) == 3.0;
    assert Distance(a[1..], b[3..], w) == 2.0;
    assert Distance(a[1..], b[2..], w) == 2.0;
    assert Distance(a[1..], b[1..], w) == 1.0;
    assert Distance(a[1..], b, w) == 2.0;
    assert Distance(a, b[3..], w) == 3.0;
    assert Distance(a, b[2..], w) == 3.0;
    assert Distance(a, b[1..], w) == 2.0;
    assert Distance(a, b, w) == 1.0;
  }

  /** "box" against "rot" with { maxCost: 3 }: can have a cost greater than one. */
  method CanHaveACostGreaterThanOne(a: seq<CodeUnit>, b: seq<CodeUnit>) returns (r: Result<Option<real>, ConfigError>)
    requires a == [98, 111, 120] && b == [114, 111, 116]
    ensures r == Success(Some(2.0))
  {
    r := Levenshtein.Levenshtein(a, b, Options(Some(3.0), None, None, None));
    DecodeWithoutSurrogates(a, 0);
    DecodeWithoutSurrogates(b, 0);
    ghost var w := ResolvedCosts(Options(Some(3.0), None, None, None));
    assert Distance(a[3..], b[2..], w) == 1.0;
    assert Distance(a[3..], b[1..], w) == 2.0;
    assert Distance(a[3..], b, w) == 3.0;
    assert Distance(a[2..], b[3..], w) == 1.0;
    assert Distance(a[2..], b[2..], w) == 1.0;
    assert Distance(a[2..], b[1..], w) == 2.0;
    assert Distance(a[2..], b, w) == 3.0;
    assert Distance(a[1..], b[3..], w) == 2.0;
    assert Distance(a[1..], b[2..], w) == 2.0;
    assert Distance(a[1..], b[1..], w) == 1.0;
    assert Distance(a[1..], b, w) == 2.0;
    assert Distance(a, b[3..], w) == 3.0;
    assert Distance(a, b[2..], w) == 3.0;
    assert Distance(a, b[1..], w) == 2.0;
    assert Distance(a, b, w) == 2.0;
  }

  /** "box" against "bzozx" with { maxCost: 1 }: can limit insertion cost using maxCost. */
  method CanLimitInsertionCostUsingMaxCost(a: seq<CodeUnit>, b: seq<CodeUnit>) returns (r: Result<Option<real>, ConfigError>)
    requires a == [98, 111, 120] && b == [98, 122, 111, 122, 120]
    ensures r == Success(None)
  {
    r := Levenshtein.Levenshtein(a, b, Options(Some(1.0), None, None, None));
    DecodeWithoutSurrogates(a, 0);
    DecodeWithoutSurrogates(b, 0);
    ghost var w := ResolvedCosts(Options(Some(1.0), None, None, None));
    assert Distance(a[3..], b[4..], w) == 1.0;
    assert Distance(a[3..], b[3..], w) == 2.0;
    assert Distance(a[3..], b[2..], w) == 3.0;
    assert Distance(a[3..], b[1..], w) == 4.0;
    assert Distance(a[3..], b, w) == 5.0;
    assert Distance(a[2..], b[5..], w) == 1.0;
    assert Distance(a[2..], b[4..], w) == 0.0;
    assert Distance(a[2..], b[3..], w) == 1.0;
    assert Distance(a[2..], b[2..], w) == 2.0;
    assert Distance(a[2..], b[1..], w) == 3.0;
    assert Distance(a[2..], b, w) == 4.0;
    assert Distance(a[1..], b[5..], w) == 2.0;
    assert Distance(a[1..], b[4..], w) == 1.0;
    assert Distance(a[1..], b[3..], w) == 1.0;
    assert Distance(a[1..], b[2..], w) == 1.0;
    assert Distance(a[1..], b[1..], w) == 2.0;
    assert Distance(a[1..], b, w) == 3.0;
    assert Distance(a, b[5..], w) == 3.0;
    assert Distance(a, b[4..], w) == 2.0;
    assert Distance(a, b[3..], w) == 2.0;
    assert Distance(a, b[2..], w) == 2.0;
    assert Distance(a, b[1..], w) == 2.0;
    assert Distance(a, b, w) == 2.0;
  }

  /** "box" against "bzozx" with { maxCost: 2 }: for insertion return correct value if less than maxCost. */
  method InsertionWithinMaxCost(a: seq<CodeUnit>, b: seq<CodeUnit>) returns (r: Result<Option<real>, ConfigError>)
    requires a == [98, 111, 120] && b == [98, 122, 111, 122, 120]
    ensures r == Success(Some(2.0))
  {
    r := Levenshtein.Levenshtein(a, b, Options(Some(2.0), None, None, None));
    DecodeWithoutSurrogates(a, 0);
    DecodeWithoutSurrogates(b, 0);
    ghost var w := ResolvedCosts(Options(Some(2.0), None, None, None));
    assert Distance(a[3..], b[4..], w) == 1.0;
    assert Distance(a[3..], b[3..], w) == 2.0;
    assert Distance(a[3..], b[2..], w) == 3.0;
    assert Distance(a[3..], b[1..], w) == 4.0;
    assert Distance(a[3..], b, w) == 5.0;
    assert Distance(a[2..], b[5..], w) == 1.0;
    assert Distance(a[2..], b[4..], w) == 0.0;
    assert Distance(a[2..], b[3..], w) == 1.0;
    assert Distance(a[2..], b[2..], w) == 2.0;
    assert Distance(a[2..], b[1..], w) == 3.0;
    assert Distance(a[2..], b, w) == 4.0;
    assert Distance(a[1..], b[5..], w) == 2.0;
    assert Distance(a[1..], b[4..], w) == 1.0;
    assert Distance(a[1..], b[3..], w) == 1.0;
    assert Distance(a[1..], b[2..], w) == 1.0;
    assert Distance(a[1..], b[1..], w) == 2.0;
    assert Distance(a[1..], b, w) == 3.0;
    assert Distance(a, b[5..], w) == 3.0;
    assert Distance(a, b[4..], w) == 2.0;
    assert Distance(a, b[3..], w) == 2.0;
    assert Distance(a, b[2..], w) == 2.0;
    assert Distance(a, b[1..], w) == 2.0;
    assert Distance(a, b, w) == 2.0;
  }

  /** "water" against "wtr" with { maxCost: 1 }: can limit deletion cost using maxCost. */
  method CanLimitDeletionCostUsingMaxCost(a: seq<CodeUnit>, b: seq<CodeUnit>) returns (r: Result<Option<real>, ConfigError>)
    requires a == [119, 97, 116, 101, 114] && b == [119, 116, 114]
    ensures r == Success(None)
  {
    r := Levenshtein.Levenshtein(a, b, Options(Some(1.0), None, None, None));
    DecodeWithoutSurrogates(a, 0);
    DecodeWithoutSurrogates(b, 0);
    ghost var w := ResolvedCosts(Options(Some(1.0), None, None, None));
    assert Distance(a[5..], b[2..], w) == 1.0;
    assert Distance(a[5..], b[1..], w) == 2.0;
    assert Distance(a[5..], b, w) == 3.0;
    assert Distance(a[4..], b[3..], w) == 1.0;
    assert Distance(a[4..], b[2..], w) == 0.0;
    assert Distance(a[4..], b[1..], w) == 1.0;
    assert Distance(a[4..], b, w) == 2.0;
    assert Distance(a[3..], b[3..], w) == 2.0;
    assert Distance(a[3..], b[2..], w) == 1.0;
    assert Distance(a[3..], b[1..], w) == 1.0;
    assert Distance(a[3..], b, w) == 2.0;
    assert Distance(a[2..], b[3..], w) == 3.0;
    assert Distance(a[2..], b[2..], w) == 2.0;
    assert Distance(a[2..], b[1..], w) == 1.0;
    assert Distance(a[2..], b, w) == 2.0;
    assert Distance(a[1..], b[3..], w) == 4.0;
    assert Distance(a[1..], b[2..], w) == 3.0;
    assert Distance(a[1..], b[1..], w) == 2.0;
    assert Distance(a[1..], b, w) == 2.0;
    assert Distance(a, b[3..], w) == 5.0;
    assert Distance(a, b[2..], w) == 4.0;
    assert Distance(a, b[1..], w) == 3.0;
    assert Distance(a, b, w) == 2.0;
  }

  /** "water" against "wtr" with { maxCost: 2 }: for deletion return correct value if less than maxCost. */
  method DeletionWithinMaxCost(a: seq<CodeUnit>, b: seq<CodeUnit>) returns (r: Result<Option<real>, ConfigError>)
    requires a == [119, 97, 116, 101, 114] && b == [119, 116, 114]
    ensures r == Success(Some(2.0))
  {
    r := Levenshtein.Levenshtein(a, b, Options(Some(2.0), None, None, None));
    DecodeWithoutSurrogates(a, 0);
    DecodeWithoutSurrogates(b, 0);
    ghost var w := ResolvedCosts(Options(Some(2.0), None, None, None));
    assert Distance(a[5..], b[2..], w) == 1.0;
    assert Distance(a[5..], b[1..], w) == 2.0;
    assert Distance(a[5..], b, w) == 3.0;
    assert Distance(a[4..], b[3..], w) == 1.0;
    assert Distance(a[4..], b[2..], w) == 0.0;
    assert Distance(a[4..], b[1..], w) == 1.0;
    assert Distance(a[4..], b, w) == 2.0;
    assert Distance(a[3..], b[3..], w) == 2.0;
    assert Distance(a[3..], b[2..], w) == 1.0;
    assert Distance(a[3..], b[1..], w) == 1.0;
    assert Distance(a[3..], b, w) == 2.0;
    assert Distance(a[2..], b[3..], w) == 3.0;
    assert Distance(a[2..], b[2..], w) == 2.0;
    assert Distance(a[2..], b[1..], w) == 1.0;
    assert Distance(a[2..], b, w) == 2.0;
    assert Distance(a[1..], b[3..], w) == 4.0;
    assert Distance(a[1..], b[2..], w) == 3.0;
    assert Distance(a[1..], b[1..], w) == 2.0;
    assert Distance(a[1..], b, w) == 2.0;
    assert Distance(a, b[3..], w) == 5.0;
    assert Distance(a, b[2..], w) == 4.0;
    assert Distance(a, b[1..], w) == 3.0;
    assert Distance(a, b, w) == 2.0;
  }

  /** "box" against "rot" with { maxCost: 1 }: can limit replacement cost using maxCost. */
  method CanLimitReplacementCostUsingMaxCost(a: seq<CodeUnit>, b: seq<CodeUnit>) returns (r: Result<Option<real>, ConfigError>)
    requires a == [98, 111, 120] && b == [114, 111, 116]
    ensures r == Success(None)
  {
    r := Levenshtein.Levenshtein(a, b, Options(Some(1.0), None, None, None));
    DecodeWithoutSurrogates(a, 0);
    DecodeWithoutSurrogates(b, 0);
    ghost var w := ResolvedCosts(Options(Some(1.0), None, None, None));
    assert Distance(a[3..], b[2..], w) == 1.0;
    assert Distance(a[3..], b[1..], w) == 2.0;
    assert Distance(a[3..], b, w) == 3.0;
    assert Distance(a[2..], b[3..], w) == 1.0;
    assert Distance(a[2..], b[2..], w) == 1.0;
    assert Distance(a[2..], b[1..], w) == 2.0;
    assert Distance(a[2..], b, w) == 3.0;
    assert Distance(a[1..], b[3..], w) == 2.0;
    assert Distance(a[1..], b[2..], w) == 2.0;
    assert Distance(a[1..], b[1..], w) == 1.0;
    assert Distance(a[1..], b, w) == 2.0;
    assert Distance(a, b[3..], w) == 3.0;
    assert Distance(a, b[2..], w) == 3.0;
    assert Distance(a, b[1..], w) == 2.0;
    assert Distance(a, b, w) == 2.0;
  }

  /** "box" against "rot" with { maxCost: 2 }: for replacement return correct value if less than maxCost. */
  method ReplacementWithinMaxCost(a: seq<CodeUnit>, b: seq<CodeUnit>) returns (r: Result<Option<real>, ConfigError>)
    requires a == [98, 111, 120] && b == [114, 111, 116]
    ensures r == Success(Some(2.0))
  {
    r := Levenshtein.Levenshtein(a, b, Options(Some(2.0), None, None, None));
    DecodeWithoutSurrogates(a, 0);
    DecodeWithoutSurrogates(b, 0);
    ghost var w := ResolvedCosts(Options(Some(2.0), None, None, None));
    assert Distance(a[3..], b[2..], w) == 1.0;
    assert Distance(a[3..], b[1..], w) == 2.0;
    assert Distance(a[3..], b, w) == 3.0;
    assert Distance(a[2..], b[3..], w) == 1.0;
    assert Distance(a[2..], b[2..], w) == 1.0;
    assert Distance(a[2..], b[1..], w) == 2.0;
    assert Distance(a[2..], b, w) == 3.0;
    assert Distance(a[1..], b[3..], w) == 2.0;
    assert Distance(a[1..], b[2..], w) == 2.0;
    assert Distance(a[1..], b[1..], w) == 1.0;
    assert Distance(a[1..], b, w) == 2.0;
    assert Distance(a, b[3..], w) == 3.0;
    assert Distance(a, b[2..], w) == 3.0;
    assert Distance(a, b[1..], w) == 2.0;
    assert Distance(a, b, w) == 2.0;
  }

  /** "water" against "hwage" with { maxCost: 4, insertionCost: 0.75 }: can set insertionCost to arbitaryValue. */
  method CanSetInsertionCost(a: seq<CodeUnit>, b: seq<CodeUnit>) returns (r: Result<Option<real>, ConfigError>)
    requires a == [119, 97, 116, 101, 114] && b == [104, 119, 97, 103, 101]
    ensures r == Success(Some(2.75))
  {
    r := Levenshtein.Levenshtein(a, b, Options(Some(4.0), Some(0.75), None, None));
    DecodeWithoutSurrogates(a, 0);
    DecodeWithoutSurrogates(b, 0);
    ghost var w := ResolvedCosts(Options(Some(4.0), Some(0.75), None, None));
    assert Distance(a[5..], b[4..], w) == 1.0;
    assert Distance(a[5..], b[3..], w) == 2.0;
    assert Distance(a[5..], b[2..], w) == 3.0;
    assert Distance(a[5..], b[1..], w) == 4.0;
    assert Distance(a[5..], b, w) == 5.0;
    assert Distance(a[4..], b[5..], w) == 0.75;
    assert Distance(a[4..], b[4..], w) == 1.0;
    assert Distance(a[4..], b[3..], w) == 2.0;
    assert Distance(a[4..], b[2..], w) == 3.0;
    assert Distance(a[4..], b[1..], w) == 4.0;
    assert Distance(a[4..], b, w) == 5.0;
    assert Distance(a[3..], b[5..], w) == 1.5;
    assert Distance(a[3..], b[4..], w) == 0.75;
    assert Distance(a[3..], b[3..], w) == 1.75;
    assert Distance(a[3..], b[2..], w) == 2.75;
    assert Distance(a[3..], b[1..], w) == 3.75;
    assert Distance(a[3..], b, w) == 4.75;
    assert Distance(a[2..], b[5..], w) == 2.25;
    assert Distance(a[2..], b[4..], w) == 1.5;
    assert Distance(a[2..], b[3..], w) == 1.75;
    assert Distance(a[2..], b[2..], w) == 2.75;
    assert Distance(a[2..], b[1..], w) == 3.75;
    assert Distance(a[2..], b, w) == 4.75;
    assert Distance(a[1..], b[5..], w) == 3.0;
    assert Distance(a[1..], b[4..], w) == 2.25;
    assert Distance(a[1..], b[3..], w) == 2.5;
    assert Distance(a[1..], b[2..], w) == 1.75;
    assert Distance(a[1..], b[1..], w) == 2.75;
    assert Distance(a[1..], b, w) == 3.75;
    assert Distance(a, b[5..], w) == 3.75;
    assert Distance(a, b[4..], w) == 3.0;
    assert Distance(a, b[3..], w) == 3.25;
    assert Distance(a, b[2..], w) == 2.5;
    assert Distance(a, b[1..], w) == 1.75;
    assert Distance(a, b, w) == 2.75;
  }

  /** "water" against "hwage" with { maxCost: 4, deletionCost: 1.25 }: can set deletionCost to arbitaryValue. */
  method CanSetDeletionCost(a: seq<CodeUnit>, b: seq<CodeUnit>) returns (r: Result<Option<real>, ConfigError>)
    requires a == [119, 97, 116, 101, 114] && b == [104, 119, 97, 103, 101]
    ensures r == Success(Some(3.25))
  {
    r := Levenshtein.Levenshtein(a, b, Options(Some(4.0), None, Some(1.25), None));
    DecodeWithoutSurrogates(a, 0);
    DecodeWithoutSurrogates(b, 0);
    ghost var w := ResolvedCosts(Options(Some(4.0), None, Some(1.25), None));
    assert Distance(a[5..], b[4..], w) == 1.25;
    assert Distance(a[5..], b[3..], w) == 2.5;
    assert Distance(a[5..], b[2..], w) == 3.75;
    assert Distance(a[5..], b[1..], w) == 5.0;
    assert Distance(a[5..], b, w) == 6.25;
    assert Distance(a[4..], b[5..], w) == 1.0;
    assert Distance(a[4..], b[4..], w) == 1.0;
    assert Distance(a[4..], b[3..], w) == 2.25;
    assert Distance(a[4..], b[2..], w) == 3.5;
    assert Distance(a[4..], b[1..], w) == 4.75;
    assert Distance(a[4..], b, w) == 6.0;
    assert Distance(a[3..], b[5..], w) == 2.0;
    assert Distance(a[3..], b[4..], w) == 1.0;
    assert Distance(a[3..], b[3..], w) == 2.0;
    assert Distance(a[3..], b[2..], w) == 3.25;
    assert Distance(a[3..], b[1..], w) == 4.5;
    assert Distance(a[3..], b, w) == 5.75;
    assert Distance(a[2..], b[5..], w) == 3.0;
    assert Distance(a[2..], b[4..], w) == 2.0;
    assert Distance(a[2..], b[3..], w) == 2.0;
    assert Distance(a[2..], b[2..], w) == 3.0;
    assert Distance(a[2..], b[1..], w) == 4.25;
    assert Distance(a[2..], b, w) == 5.5;
    assert Distance(a[1..], b[5..], w) == 4.0;
    assert Distance(a[1..], b[4..], w) == 3.0;
    assert Distance(a[1..], b[3..], w) == 3.0;
    assert Distance(a[1..], b[2..], w) == 2.0;
    assert Distance(a[1..], b[1..], w) == 3.25;
    assert Distance(a[1..], b, w) == 4.5;
    assert Distance(a, b[5..], w) == 5.0;
    assert Distance(a, b[4..], w) == 4.0;
    assert Distance(a, b[3..], w) == 4.0;
    assert Distance(a, b[2..], w) == 3.0;
    assert Distance(a, b[1..], w) == 2.0;
    assert Distance(a, b, w) == 3.25;
  }

  /** "water" against "hwage" with { maxCost: 4, replacementCost: 1.5 }: can set replacementCost to arbitaryValue. */
  method CanSetReplacementCost(a: seq<CodeUnit>, b: seq<CodeUnit>) returns (r: Result<Option<real>, ConfigError>)
    requires a == [119, 97, 116, 101, 114] && b == [104, 119, 97, 103, 101]
    ensures r == Success(Some(3.5))
  {
    r := Levenshtein.Levenshtein(a, b, Options(Some(4.0), None, None, Some(1.5)));
    DecodeWithoutSurrogates(a, 0);
    DecodeWithoutSurrogates(b, 0);
    ghost var w := ResolvedCosts(Options(Some(4.0), None, None, Some(1.5)));
    assert Distance(a[5..], b[4..], w) == 1.0;
    assert Distance(a[5..], b[3..], w) == 2.0;
    assert Distance(a[5..], b[2..], w) == 3.0;
    assert Distance(a[5..], b[1..], w) == 4.0;
    assert Distance(a[5..], b, w) == 5.0;
    assert Distance(a[4..], b[5..], w) == 1.0;
    assert Distance(a[4..], b[4..], w) == 1.5;
    assert Distance(a[4..], b[3..], w) == 2.5;
    assert Distance(a[4..], b[2..], w) == 3.5;
    assert Distance(a[4..], b[1..], w) == 4.5;
    assert Distance(a[4..], b, w) == 5.5;
    assert Distance(a[3..], b[5..], w) == 2.0;
    assert Distance(a[3..], b[4..], w) == 1.0;
    assert Distance(a[3..], b[3..], w) == 2.0;
    assert Distance(a[3..], b[2..], w) == 3.0;
    assert Distance(a[3..], b[1..], w) == 4.0;
    assert Distance(a[3..], b, w) == 5.0;
    assert Distance(a[2..], b[5..], w) == 3.0;
    assert Distance(a[2..], b[4..], w) == 2.0;
    assert Distance(a[2..], b[3..], w) == 2.5;
    assert Distance(a[2..], b[2..], w) == 3.5;
    assert Distance(a[2..], b[1..], w) == 4.5;
    assert Distance(a[2..], b, w) == 5.5;
    assert Distance(a[1..], b[5..], w) == 4.0;
    assert Distance(a[1..], b[4..], w) == 3.0;
    assert Distance(a[1..], b[3..], w) == 3.5;
    assert Distance(a[1..], b[2..], w) == 2.5;
    assert Distance(a[1..], b[1..], w) == 3.5;
    assert Distance(a[1..], b, w) == 4.5;
    assert Distance(a, b[5..], w) == 5.0;
    assert Distance(a, b[4..], w) == 4.0;
    assert Distance(a, b[3..], w) == 4.5;
    assert Distance(a, b[2..], w) == 3.5;
    assert Distance(a, b[1..], w) == 2.5;
    assert Distance(a, b, w) == 3.5;
  }

  /**
   * "\u{1F600}" (a surrogate pair, two code units) against "a" with { maxCost: 3 }: the pair
   * is one code point, so one replacement, not a replacement and an insertion.
   */
  method SurrogatePairIsOneCharacter(a: seq<CodeUnit>, b: seq<CodeUnit>) returns (r: Result<Option<real>, ConfigError>)
    requires a == [0xD83D, 0xDE00] && b == [97]
    ensures r == Success(Some(1.0))
  {
    r := Levenshtein.Levenshtein(a, b, Options(Some(3.0), None, None, None));
    assert StartsPair(a, 0) && Width(a, 0) == 2;
    ghost var cps := Decode(a);
    assert cps == [0x1F600];
    DecodeWithoutSurrogates(b, 0);
    ghost var w := ResolvedCosts(Options(Some(3.0), None, None, None));
    assert Distance(cps, b[1..], w) == 1.0;
    assert Distance(cps[1..], b, w) == 1.0;
  }

  /** "a" against "b" with no maxCost: every step is pruned, so there is no result. */
  method AbsentMaxCostPrunesEveryStep(a: seq<CodeUnit>, b: seq<CodeUnit>) returns (r: Result<Option<real>, ConfigError>)
    requires a == [97] && b == [98]
    ensures r == Success(None)
  {
    r := Levenshtein.Levenshtein(a, b, Options(None, None, None, None));
    DecodeWithoutSurrogates(a, 0);
    DecodeWithoutSurrogates(b, 0);
  }

  /** "box" against "box" with no maxCost: the prefix skip alone reaches the end, at cost 0. */
  method AbsentMaxCostStillSkipsEqualStrings(a: seq<CodeUnit>, b: seq<CodeUnit>) returns (r: Result<Option<real>, ConfigError>)
    requires a == [98, 111, 120] && b == [98, 111, 120]
    ensures r == Success(Some(0.0))
  {
    r := Levenshtein.Levenshtein(a, b, Options(None, None, None, None));
  }
}
