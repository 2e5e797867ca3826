/**
 * The weighted Levenshtein distance between two code-point sequences, as the search
 * in index.ts computes it: a step that consumes one code point of `a` only is charged
 * `insertion`, one that consumes a code point of `b` only is charged `deletion`, one
 * that consumes one of each is charged `replacement`, and equal code points are
 * matched for free.
 */
module EditDistance {

  /** The three operation costs. */
  datatype Costs = Costs(insertion: real, deletion: real, replacement: real) {
    predicate NonNegative() {
      0.0 <= insertion && 0.0 <= deletion && 0.0 <= replacement
    }
  }

  /** Costs the entry point admits. */
  type Weights = w: Costs | w.NonNegative() witness Costs(0.0, 0.0, 0.0)

  function Min(x: real, y: real): real
  {
    if x <= y then x else y
  }

  /** Cost of consuming one code point of each sequence together. */
  function PairCost(x: int, y: int, w: Weights): real
  {
    if x == y then 0.0 else w.replacement
  }

  /** The reference recurrence: the cheapest way to consume both sequences completely. */
  function Distance(a: seq<int>, b: seq<int>, w: Weights): (d: real)
    ensures 0.0 <= d
    decreases |a| + |b|
  {
    if a == [] && b == [] then 0.0
    else if a == [] then w.deletion + Distance(a, b[1..], w)
    else if b == [] then w.insertion + Distance(a[1..], b, w)
    else
      Min(Min(w.insertion + Distance(a[1..], b, w), w.deletion + Distance(a, b[1..], w)),
          PairCost(a[0], b[0], w) + Distance(a[1..], b[1..], w))
  }

  // ---------------------------------------------------------------------------
  // Edit scripts: the step sequences the search may take.

  /**
   * One step of the search. `Insertion` advances only the cursor in `a`, `Deletion`
   * only the cursor in `b`, `Replacement` both; `Match` advances both over equal code points.
   */
  datatype Step = Match | Insertion | Deletion | Replacement

  function StepCost(s: Step, w: Weights): real
  {
    match s
    case Match => 0.0
    case Insertion => w.insertion
    case Deletion => w.deletion
    case Replacement => w.replacement
  }

  function ScriptCost(p: seq<Step>, w: Weights): (c: real)
    ensures 0.0 <= c
  {
    if p == [] then 0.0 else StepCost(p[0], w) + ScriptCost(p[1..], w)
  }

  /** The steps of `p`, taken from the start of `a` and `b`, consume both sequences exactly. */
  predicate Transforms(a: seq<int>, b: seq<int>, p: seq<Step>)
    decreases |p|
  {
    if p == [] then a == [] && b == []
    else
      match p[0]
      case Match => a != [] && b != [] && a[0] == b[0] && Transforms(a[1..], b[1..], p[1..])
      case Insertion => a != [] && Transforms(a[1..], b, p[1..])
      case Deletion => b != [] && Transforms(a, b[1..], p[1..])
      case Replacement => a != [] && b != [] && Transforms(a[1..], b[1..], p[1..])
  }

  /** No script is cheaper than the distance. */
  lemma {:induction false} DistanceIsLowerBound(a: seq<int>, b: seq<int>, p: seq<Step>, w: Weights)
    requires Transforms(a, b, p)
    ensures Distance(a, b, w) <= ScriptCost(p, w)
    decreases |p|
  {
    if p != [] {
      match p[0]
      case Match => DistanceIsLowerBound(a[1..], b[1..], p[1..], w);
      case Insertion => DistanceIsLowerBound(a[1..], b, p[1..], w);
      case Deletion => DistanceIsLowerBound(a, b[1..], p[1..], w);
      case Replacement => DistanceIsLowerBound(a[1..], b[1..], p[1..], w);
    }
  }

  /** A script that costs exactly the distance, so the distance is attained. */
  function OptimalScript(a: seq<int>, b: seq<int>, w: Weights): (p: seq<Step>)
    ensures Transforms(a, b, p)
    ensures ScriptCost(p, w) == Distance(a, b, w)
    decreases |a| + |b|
  {
    if a == [] && b == [] then []
    else if a == [] then [Deletion] + OptimalScript(a, b[1..], w)
    else if b == [] then [Insertion] + OptimalScript(a[1..], b, w)
    else
      var viaA := w.insertion + Distance(a[1..], b, w);
      var viaB := w.deletion + Distance(a, b[1..], w);
      var viaBoth := PairCost(a[0], b[0], w) + Distance(a[1..], b[1..], w);
      if Min(viaA, viaB) <= viaBoth then
        if viaA <= viaB then [Insertion] + OptimalScript(a[1..], b, w)
        else [Deletion] + OptimalScript(a, b[1..], w)
      else if a[0] == b[0] then [Match] + OptimalScript(a[1..], b[1..], w)
      else [Replacement] + OptimalScript(a[1..], b[1..], w)
  }

  // ---------------------------------------------------------------------------
  // Why skipping a common prefix at zero cost loses nothing.

  /** Removing one code point from the front of `b` costs at most one `insertion` more. */
  lemma {:induction false} DropFrontOfB(a: seq<int>, b: seq<int>, c: int, w: Weights)
    ensures Distance(a, b, w) <= w.insertion + Distance(a, [c] + b, w)
    decreases |a|
  {
    assert ([c] + b)[1..] == b;
    if a != [] {
      DropFrontOfB(a[1..], b, c, w);
    }
  }

  /** Removing one code point from the front of `a` costs at most one `deletion` more. */
  lemma {:induction false} DropFrontOfA(a: seq<int>, b: seq<int>, c: int, w: Weights)
    ensures Distance(a, b, w) <= w.deletion + Distance([c] + a, b, w)
    decreases |b|
  {
    assert ([c] + a)[1..] == a;
    if b != [] {
      DropFrontOfA(a, b[1..], c, w);
    }
  }

  /** Equal leading code points are always best matched with each other. */
  lemma MatchFirst(a: seq<int>, b: seq<int>, c: int, w: Weights)
    ensures Distance([c] + a, [c] + b, w) == Distance(a, b, w)
  {
    assert ([c] + a)[1..] == a;
    assert ([c] + b)[1..] == b;
    DropFrontOfB(a, b, c, w);
    DropFrontOfA(a, b, c, w);
  }

  /** A common prefix costs nothing. */
  lemma {:induction false} CommonPrefixIsFree(prefix: seq<int>, a: seq<int>, b: seq<int>, w: Weights)
    ensures Distance(prefix + a, prefix + b, w) == Distance(a, b, w)
  {
    if prefix != [] {
      var rest := prefix[1..];
      assert prefix + a == [prefix[0]] + (rest + a);
      assert prefix + b == [prefix[0]] + (rest + b);
      MatchFirst(rest + a, rest + b, prefix[0], w);
      CommonPrefixIsFree(rest, a, b, w);
    } else {
      assert prefix + a == a && prefix + b == b;
    }
  }

  // ---------------------------------------------------------------------------
  // Consequences the tests rely on.

  /** Identical sequences are at distance 0. */
  lemma {:induction false} IdenticalIsFree(a: seq<int>, w: Weights)
    ensures Distance(a, a, w) == 0.0
  {
    CommonPrefixIsFree(a, [], [], w);
    assert a + [] == a;
  }

  /** From nothing, every code point of `b` is paid with `deletion`. */
  lemma {:induction false} FromEmpty(b: seq<int>, w: Weights)
    ensures Distance([], b, w) == w.deletion * |b| as real
  {
    if b != [] {
      FromEmpty(b[1..], w);
    }
  }

  /** To nothing, every code point of `a` is paid with `insertion`. */
  lemma {:induction false} ToEmpty(a: seq<int>, w: Weights)
    ensures Distance(a, [], w) == w.insertion * |a| as real
  {
    if a != [] {
      ToEmpty(a[1..], w);
    }
  }

  /** The costs with the roles of `insertion` and `deletion` exchanged. */
  function Swapped(w: Weights): (v: Weights)
  {
    Costs(w.deletion, w.insertion, w.replacement)
  }

  /**
   * Exchanging the two sequences exchanges the roles of `insertion` and `deletion`;
   * so with equal insertion and deletion costs the distance is symmetric.
   */
  lemma {:induction false} SwapArguments(a: seq<int>, b: seq<int>, w: Weights)
    ensures Distance(a, b, w) == Distance(b, a, Swapped(w))
    decreases |a| + |b|
  {
    if a != [] && b != [] {
      SwapArguments(a[1..], b, w);
      SwapArguments(a, b[1..], w);
      SwapArguments(a[1..], b[1..], w);
    } else if a != [] {
      SwapArguments(a[1..], b, w);
    } else if b != [] {
      SwapArguments(a, b[1..], w);
    }
  }
}
