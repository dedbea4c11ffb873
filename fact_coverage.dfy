/**
 * How many facts a problem could possibly contain: every predicate of the domain
 * grounded with every combination of objects whose types fit its parameters, and
 * the number of pairs of such facts. `T` is a parameter type and `O` an object of
 * the problem; whether an object fits a type is decided by the planner's type
 * checker, passed in as `satisfies`.
 */
module FactCoverage {
  import opened Common
  import opened SearchDriver

  datatype Predicate<T> = Predicate(name: string, parameterTypes: seq<T>)

  /** A grounded predicate: the predicate with one object per parameter. */
  datatype Fact<T, O> = Fact(pred: Predicate<T>, args: seq<O>)

  // ---------------------------------------------------------------------------
  // itertools.product

  /** Every combination `[x] + c`, for `x` in `xs` in order, and `c` in `combos` in order. */
  function Extend<O>(xs: seq<O>, combos: seq<seq<O>>): (r: seq<seq<O>>)
    ensures |r| == |xs| * |combos|
  {
    if |xs| == 0 then []
    else seq(|combos|, k requires 0 <= k < |combos| => [xs[0]] + combos[k]) + Extend(xs[1..], combos)
  }

  /** `list(itertools.product(*options))`, the first position varying slowest. */
  function Product<O>(options: seq<seq<O>>): seq<seq<O>>
  {
    if |options| == 0 then [[]] else Extend(options[0], Product(options[1..]))
  }

  /** The product of the option counts. */
  function SizeProduct<O>(options: seq<seq<O>>): nat
  {
    if |options| == 0 then 1 else |options[0]| * SizeProduct(options[1..])
  }

  lemma {:induction false} ProductSize<O>(options: seq<seq<O>>)
    ensures |Product(options)| == SizeProduct(options)
  {
    if |options| > 0 {
      ProductSize(options[1..]);
    }
  }

  lemma {:induction false} ExtendMembers<O>(xs: seq<O>, combos: seq<seq<O>>, c: seq<O>)
    ensures c in Extend(xs, combos) <==> |c| > 0 && c[0] in xs && c[1..] in combos
  {
    if |xs| > 0 {
      ExtendMembers(xs[1..], combos, c);
      var front := seq(|combos|, k requires 0 <= k < |combos| => [xs[0]] + combos[k]);
      assert Extend(xs, combos) == front + Extend(xs[1..], combos);
      if c in front {
        var k :| 0 <= k < |combos| && front[k] == c;
        assert c[1..] == combos[k];
      }
      if |c| > 0 && c[0] == xs[0] && c[1..] in combos {
        var k :| 0 <= k < |combos| && combos[k] == c[1..];
        assert front[k] == c;
      }
    }
  }

  /** The product holds exactly the sequences that pick one option per position. */
  lemma {:induction false} ProductMembers<O>(options: seq<seq<O>>, c: seq<O>)
    ensures c in Product(options) <==>
      |c| == |options| && forall i :: 0 <= i < |c| ==> c[i] in options[i]
  {
    if |options| == 0 {
      assert c in Product(options) <==> c == [];
    } else {
      ExtendMembers(options[0], Product(options[1..]), c);
      if |c| > 0 {
        ProductMembers(options[1..], c[1..]);
        if |c| == |options| && forall i :: 0 <= i < |c| ==> c[i] in options[i] {
          assert forall i :: 0 <= i < |c[1..]| ==> c[1..][i] in options[1..][i] by {
            forall i | 0 <= i < |c[1..]|
              ensures c[1..][i] in options[1..][i]
            {
              assert c[1..][i] == c[i + 1];
            }
          }
        }
        if c[1..] in Product(options[1..]) && c[0] in options[0] {
          forall i | 0 <= i < |c|
            ensures c[i] in options[i]
          {
            if i > 0 {
              assert c[i] == c[1..][i - 1];
            }
          }
        }
      }
    }
  }

  /** A parameter without candidates leaves no combination at all. */
  lemma {:induction false} ProductOfEmptyOption<O>(options: seq<seq<O>>, i: int)
    requires 0 <= i < |options| && options[i] == []
    ensures Product(options) == []
  {
    if i > 0 {
      ProductOfEmptyOption(options[1..], i - 1);
    }
  }

  // ---------------------------------------------------------------------------
  // Grounding the predicates

  /**
   * The objects of type `t`, in problem order: only objects of type `t`, and every
   * one of them (`ValidObjectsCounts` gives the multiplicities).
   */
  function ValidObjects<T, O>(t: T, objects: seq<O>, satisfies: (T, O) -> bool): (r: seq<O>)
    ensures forall k :: 0 <= k < |r| ==> r[k] in objects && satisfies(t, r[k])
    ensures forall o :: o in objects && satisfies(t, o) ==> o in r
  {
    if |objects| == 0 then []
    else
      var last := objects[|objects| - 1];
      ValidObjects(t, objects[..|objects| - 1], satisfies) + (if satisfies(t, last) then [last] else [])
  }

  /** Each object of type `t` occurs in the result as many times as the problem lists it. */
  lemma {:induction false} ValidObjectsCounts<T, O>(t: T, objects: seq<O>, satisfies: (T, O) -> bool)
    ensures var r := ValidObjects(t, objects, satisfies);
      forall o :: o in objects ==> multiset(r)[o] == if satisfies(t, o) then multiset(objects)[o] else 0
  {
    if |objects| > 0 {
      var front := objects[..|objects| - 1];
      ValidObjectsCounts(t, front, satisfies);
      CountsAfterLast(t, objects, satisfies, ValidObjects(t, front, satisfies), ValidObjects(t, objects, satisfies));
    }
  }

  /** Keeping or dropping the last object keeps the counts of the filtered objects right. */
  lemma CountsAfterLast<T, O>(t: T, objects: seq<O>, satisfies: (T, O) -> bool, v: seq<O>, r: seq<O>)
    requires |objects| > 0
    requires var front := objects[..|objects| - 1];
      forall o :: o in front ==> multiset(v)[o] == if satisfies(t, o) then multiset(front)[o] else 0
    requires forall k :: 0 <= k < |v| ==> v[k] in objects[..|objects| - 1]
    requires var last := objects[|objects| - 1]; r == v + (if satisfies(t, last) then [last] else [])
    ensures forall o :: o in objects ==> multiset(r)[o] == if satisfies(t, o) then multiset(objects)[o] else 0
  {
    var front, last := objects[..|objects| - 1], objects[|objects| - 1];
    assert objects == front + [last];
    forall o | o in objects
      ensures multiset(r)[o] == if satisfies(t, o) then multiset(objects)[o] else 0
    {
      if o !in front {
        forall k | 0 <= k < |v|
          ensures v[k] != o
        {
        }
        assert o !in v;
      }
    }
  }

  lemma {:induction false} NoFitNoCandidates<T, O>(t: T, objects: seq<O>, satisfies: (T, O) -> bool)
    requires forall o :: o in objects ==> !satisfies(t, o)
    ensures ValidObjects(t, objects, satisfies) == []
  {
    if |objects| > 0 {
      NoFitNoCandidates(t, objects[..|objects| - 1], satisfies);
    }
  }

  /**
   * The candidate objects of each parameter; a predicate without parameters gets the
   * single empty option list, as the harness builds it.
   */
  function Options<T, O>(p: Predicate<T>, objects: seq<O>, satisfies: (T, O) -> bool): seq<seq<O>>
  {
    if |p.parameterTypes| > 0 then
      seq(|p.parameterTypes|, i requires 0 <= i < |p.parameterTypes| =>
        ValidObjects(p.parameterTypes[i], objects, satisfies))
    else [[]]
  }

  function Ground<T, O>(p: Predicate<T>, combos: seq<seq<O>>): seq<Fact<T, O>>
  {
    seq(|combos|, k requires 0 <= k < |combos| => Fact(p, combos[k]))
  }

  /** The possible facts of one predicate. */
  function PredicateFacts<T, O>(p: Predicate<T>, objects: seq<O>, satisfies: (T, O) -> bool): seq<Fact<T, O>>
  {
    Ground(p, Product(Options(p, objects, satisfies)))
  }

  /** The possible facts of all predicates, predicate by predicate. */
  function AllFacts<T, O>(preds: seq<Predicate<T>>, objects: seq<O>, satisfies: (T, O) -> bool): seq<Fact<T, O>>
  {
    if |preds| == 0 then []
    else
      AllFacts(preds[..|preds| - 1], objects, satisfies)
      + PredicateFacts(preds[|preds| - 1], objects, satisfies)
  }

  /**
   * How many groundings a predicate has: the product over its parameters of the number
   * of fitting objects, and 0 for a predicate without parameters.
   */
  function GroundingCount<T, O>(p: Predicate<T>, objects: seq<O>, satisfies: (T, O) -> bool): nat
  {
    if |p.parameterTypes| == 0 then 0 else SizeProduct(Options(p, objects, satisfies))
  }

  function SumCounts<T, O>(preds: seq<Predicate<T>>, objects: seq<O>, satisfies: (T, O) -> bool): nat
  {
    if |preds| == 0 then 0
    else
      SumCounts(preds[..|preds| - 1], objects, satisfies)
      + GroundingCount(preds[|preds| - 1], objects, satisfies)
  }

  /** The number of possible facts is the sum over predicates of their grounding counts. */
  lemma {:induction false} FactCount<T, O>(preds: seq<Predicate<T>>, objects: seq<O>, satisfies: (T, O) -> bool)
    ensures |AllFacts(preds, objects, satisfies)| == SumCounts(preds, objects, satisfies)
  {
    if |preds| > 0 {
      var p := preds[|preds| - 1];
      FactCount(preds[..|preds| - 1], objects, satisfies);
      ProductSize(Options(p, objects, satisfies));
      if |p.parameterTypes| == 0 {
        assert Product(Options(p, objects, satisfies)) == Extend([], [[]]);
      }
    }
  }

  /** A fact is possible exactly when it is a possible fact of one of the predicates. */
  lemma AllFactsMembers<T, O>(preds: seq<Predicate<T>>, objects: seq<O>, satisfies: (T, O) -> bool,
                              f: Fact<T, O>)
    ensures f in AllFacts(preds, objects, satisfies) <==>
      exists k :: 0 <= k < |preds| && f in PredicateFacts(preds[k], objects, satisfies)
  {
    var facts := (p: Predicate<T>) => PredicateFacts(p, objects, satisfies);
    AllFactsGathered(preds, objects, satisfies, facts);
    GatherMembers(preds, facts, f);
    if exists k :: 0 <= k < |preds| && f in PredicateFacts(preds[k], objects, satisfies) {
      var k :| 0 <= k < |preds| && f in PredicateFacts(preds[k], objects, satisfies);
      assert f in facts(preds[k]);
    }
  }

  /** The pieces `g` gives for each element, concatenated in order. */
  function Gather<P, X>(ps: seq<P>, g: P -> seq<X>): seq<X>
  {
    if |ps| == 0 then [] else Gather(ps[..|ps| - 1], g) + g(ps[|ps| - 1])
  }

  lemma {:induction false} GatherMembers<P, X>(ps: seq<P>, g: P -> seq<X>, x: X)
    ensures x in Gather(ps, g) <==> exists k :: 0 <= k < |ps| && x in g(ps[k])
  {
    if |ps| > 0 {
      var front := ps[..|ps| - 1];
      GatherMembers(front, g, x);
      if x in Gather(front, g) {
        var k :| 0 <= k < |front| && x in g(front[k]);
        assert front[k] == ps[k];
      }
      if exists k :: 0 <= k < |ps| && x in g(ps[k]) {
        var k :| 0 <= k < |ps| && x in g(ps[k]);
        if k < |front| {
          assert front[k] == ps[k];
        }
      }
    }
  }

  lemma {:induction false} AllFactsGathered<T, O>(preds: seq<Predicate<T>>, objects: seq<O>,
                                                  satisfies: (T, O) -> bool, facts: Predicate<T> -> seq<Fact<T, O>>)
    requires forall p :: facts(p) == PredicateFacts(p, objects, satisfies)
    ensures AllFacts(preds, objects, satisfies) == Gather(preds, facts)
  {
    if |preds| > 0 {
      AllFactsGathered(preds[..|preds| - 1], objects, satisfies, facts);
    }
  }

  /** A predicate without parameters contributes no fact. */
  lemma NullaryPredicateNoFacts<T, O>(p: Predicate<T>, objects: seq<O>, satisfies: (T, O) -> bool)
    requires |p.parameterTypes| == 0
    ensures PredicateFacts(p, objects, satisfies) == []
  {
    assert Product(Options(p, objects, satisfies)) == Extend([], [[]]);
  }

  /** A parameter that no object fits makes its predicate contribute no fact. */
  lemma UnfillableParameterNoFacts<T, O>(p: Predicate<T>, objects: seq<O>, satisfies: (T, O) -> bool, i: int)
    requires 0 <= i < |p.parameterTypes|
    requires forall o :: o in objects ==> !satisfies(p.parameterTypes[i], o)
    ensures PredicateFacts(p, objects, satisfies) == []
  {
    var options := Options(p, objects, satisfies);
    NoFitNoCandidates(p.parameterTypes[i], objects, satisfies);
    ProductOfEmptyOption(options, i);
  }

  /** Every possible fact of a predicate with parameters fills each parameter with a fitting object. */
  lemma PossibleFactsWellTyped<T, O>(p: Predicate<T>, objects: seq<O>, satisfies: (T, O) -> bool, f: Fact<T, O>)
    requires |p.parameterTypes| > 0
    ensures f in PredicateFacts(p, objects, satisfies) <==>
      && f.pred == p
      && |f.args| == |p.parameterTypes|
      && forall i :: 0 <= i < |f.args| ==> f.args[i] in objects && satisfies(p.parameterTypes[i], f.args[i])
  {
    var options := Options(p, objects, satisfies);
    var facts := PredicateFacts(p, objects, satisfies);
    ProductMembers(options, f.args);
    if f in facts {
      var k :| 0 <= k < |facts| && facts[k] == f;
    }
    if f.pred == p && f.args in Product(options) {
      var k :| 0 <= k < |Product(options)| && Product(options)[k] == f.args;
      assert facts[k] == f;
    }
  }

  // ---------------------------------------------------------------------------
  // Pairs

  /** `math.comb(n, 2)`. */
  function Comb2(n: nat): nat
  {
    if n < 2 then 0 else n * (n - 1) / 2
  }

  /** The index pairs `(i, j)` with `i < j < n`, as a reference for counting pairs. */
  function IndexPairs(n: nat): seq<(nat, nat)>
  {
    if n == 0 then []
    else IndexPairs(n - 1) + seq(n - 1, i requires 0 <= i < n - 1 => (i, n - 1))
  }

  /** `comb(n, 2)` counts the unordered pairs of `n` things. */
  lemma {:induction false} Comb2CountsPairs(n: nat)
    ensures |IndexPairs(n)| == Comb2(n)
    ensures forall i: nat, j: nat :: (i, j) in IndexPairs(n) <==> i < j < n
  {
    if n > 0 {
      Comb2CountsPairs(n - 1);
      var last := seq(n - 1, i requires 0 <= i < n - 1 => (i, n - 1));
      assert forall i: nat, j: nat :: (i, j) in last <==> i < j == n - 1 by {
        forall i: nat, j: nat | i < j == n - 1
          ensures (i, j) in last
        {
          assert last[i] == (i, j);
        }
      }
      if n >= 2 {
        assert n * (n - 1) / 2 == (n - 1) * (n - 2) / 2 + (n - 1) by {
          assert n * (n - 1) == (n - 1) * (n - 2) + 2 * (n - 1);
        }
      }
    }
  }

  /** The counts the run reports about possible facts and fact pairs. */
  datatype Coverage<T, O> = Coverage(
    possibleFacts: seq<Fact<T, O>>,
    totalPossiblePairs: nat,
    totalActualPairs: Maybe<nat>)

  /**
   * Grounds every predicate against the problem's objects, then counts the pairs of
   * possible facts and, when there is a final model, the pairs of facts in its state.
   */
  method CalculatePossibleFactsAndPairings<T, O>(
    preds: seq<Predicate<T>>, objects: seq<O>, satisfies: (T, O) -> bool, model: Option<PlanModel>)
    returns (r: Coverage<T, O>)
    ensures r.possibleFacts == AllFacts(preds, objects, satisfies)
    ensures |r.possibleFacts| == SumCounts(preds, objects, satisfies)
    ensures r.totalPossiblePairs == Comb2(|r.possibleFacts|)
    ensures r.totalActualPairs == if model.Some? then Value(Comb2(model.value.stateElements)) else NA
  {
    var possibleFacts: seq<Fact<T, O>> := [];
    var i := 0;
    while i < |preds|
      invariant 0 <= i <= |preds|
      invariant possibleFacts == AllFacts(preds[..i], objects, satisfies)
    {
      var p := preds[i];
      var parameterOptions := ParameterOptions(p, objects, satisfies);
      var combinations := Product(parameterOptions);
      var predicateAllCombinations := GroundAll(p, combinations);
      assert preds[..i + 1][..i] == preds[..i];
      possibleFacts := possibleFacts + predicateAllCombinations;
      i := i + 1;
    }
    assert preds[..|preds|] == preds;
    FactCount(preds, objects, satisfies);
    var actual: Maybe<nat> := NA;
    if model.Some? {
      actual := Value(Comb2(model.value.stateElements));
    }
    r := Coverage(possibleFacts, Comb2(|possibleFacts|), actual);
  }

  /** The objects that may fill each parameter; a predicate without parameters gets one empty option. */
  method ParameterOptions<T, O>(p: Predicate<T>, objects: seq<O>, satisfies: (T, O) -> bool)
    returns (parameterOptions: seq<seq<O>>)
    ensures parameterOptions == Options(p, objects, satisfies)
  {
    parameterOptions := [];
    if |p.parameterTypes| > 0 {
      var j := 0;
      while j < |p.parameterTypes|
        invariant 0 <= j <= |p.parameterTypes|
        invariant |parameterOptions| == j
        invariant forall q :: 0 <= q < j ==>
          parameterOptions[q] == ValidObjects(p.parameterTypes[q], objects, satisfies)
      {
        var validObs := ValidObjectsOf(p.parameterTypes[j], objects, satisfies);
        parameterOptions := parameterOptions + [validObs];
        j := j + 1;
      }
    } else {
      parameterOptions := [[]];
    }
  }

  /** The objects of the given type, in the problem's order. */
  method ValidObjectsOf<T, O>(t: T, objects: seq<O>, satisfies: (T, O) -> bool) returns (validObs: seq<O>)
    ensures validObs == ValidObjects(t, objects, satisfies)
  {
    validObs := [];
    var m := 0;
    while m < |objects|
      invariant 0 <= m <= |objects|
      invariant validObs == ValidObjects(t, objects[..m], satisfies)
    {
      ValidObjectsSnoc(t, objects, satisfies, m);
      if satisfies(t, objects[m]) {
        validObs := validObs + [objects[m]];
      }
      m := m + 1;
    }
    assert objects[..|objects|] == objects;
  }

  /** The objects of type `t` among the first `m + 1`: those among the first `m`, then the next if it fits. */
  lemma ValidObjectsSnoc<T, O>(t: T, objects: seq<O>, satisfies: (T, O) -> bool, m: nat)
    requires m < |objects|
    ensures ValidObjects(t, objects[..m + 1], satisfies)
         == ValidObjects(t, objects[..m], satisfies) + (if satisfies(t, objects[m]) then [objects[m]] else [])
  {
    assert objects[..m + 1][..m] == objects[..m];
  }

  /** One fact of the predicate per combination, in order. */
  method GroundAll<T, O>(p: Predicate<T>, combinations: seq<seq<O>>) returns (facts: seq<Fact<T, O>>)
    ensures facts == Ground(p, combinations)
  {
    facts := [];
    var c := 0;
    while c < |combinations|
      invariant 0 <= c <= |combinations|
      invariant facts == Ground(p, combinations[..c])
    {
      facts := facts + [Fact(p, combinations[c])];
      c := c + 1;
    }
    assert combinations[..|combinations|] == combinations;
  }
}
