/**
 * The per-run figures the experiment runner derives once the search is over: the
 * share of possible facts and fact pairs the final state covers, the novelty
 * counters of novelty-based solvers, whether the plan passed PANDA's verifier, and
 * the problem name the results row is filed under.
 */
module Metrics {
  import opened Common
  import opened SearchDriver
  import opened FactCoverage

  // ---------------------------------------------------------------------------
  // Coverage percentages

  /**
   * `percentage_facts` and `percentage_pairs`: the final state's facts over the possible
   * facts and its fact pairs over the possible pairs, in percent, or N/A without a
   * final model. A zero denominator raises ZeroDivisionError, the facts share first.
   */
  function CoveragePercentages(model: Option<PlanModel>, numPossibleFacts: nat,
                               totalPossiblePairs: nat, totalActualPairs: Maybe<nat>)
    : (r: Result<(Maybe<real>, Maybe<real>)>)
    requires model.Some? <==> totalActualPairs.Value?
    ensures model.None? ==> r == Ok((NA, NA))
    ensures r.Err? ==> r.error == ZeroDivisionError
    ensures r.Err? <==> model.Some? && (numPossibleFacts == 0 || totalPossiblePairs == 0)
    ensures r.Ok? && model.Some? ==>
      && r.value.0 == Value(model.value.stateElements as real / numPossibleFacts as real * 100.0)
      && r.value.1 == Value(totalActualPairs.v as real / totalPossiblePairs as real * 100.0)
  {
    if model.None? then Ok((NA, NA))
    else if numPossibleFacts == 0 then Err(ZeroDivisionError)
    else
      var facts := model.value.stateElements as real / numPossibleFacts as real * 100.0;
      if totalPossiblePairs == 0 then Err(ZeroDivisionError)
      else Ok((Value(facts), Value(totalActualPairs.v as real / totalPossiblePairs as real * 100.0)))
  }

  /**
   * With the pair count the runner computes, a run that ends with a model fails exactly
   * when the domain has fewer than two possible facts: one possible fact already leaves
   * no pair to divide by.
   */
  lemma CoverageFailsIffFewerThanTwoFacts(model: Option<PlanModel>, numPossibleFacts: nat)
    requires model.Some?
    ensures
      (CoveragePercentages(model, numPossibleFacts, Comb2(numPossibleFacts),
         Value(Comb2(model.value.stateElements))).Err?)
      <==> numPossibleFacts < 2
  {
    if numPossibleFacts >= 2 {
      assert numPossibleFacts * (numPossibleFacts - 1) >= 2;
    }
  }

  // ---------------------------------------------------------------------------
  // Novelty counters

  /** The counters a novelty-based solver keeps. */
  datatype NoveltyCounters = NoveltyCounters(
    numNovelStates: nat,
    numNotNovelStates: nat,
    numNovelMethods: nat,
    numNotNovelMethods: nat,
    numNovelMethodNotNovelState: nat,
    numNovelMethodsNovelState: nat)

  /** The share of novel states in percent; an int 0 when no state was classified. */
  function PercentageNovelStates(novel: nat, notNovel: nat): (r: Number)
    ensures 0.0 <= r.Val() <= 100.0
    ensures r.Val() == 0.0 <==> novel == 0
    ensures r.Val() == 100.0 <==> novel > 0 && notNovel == 0
    ensures r.Int? <==> novel + notNovel == 0
    ensures r.Val() * (novel + notNovel) as real == novel as real * 100.0
  {
    if novel + notNovel == 0 then Int(0)
    else Float(novel as real / (novel + notNovel) as real * 100.0)
  }

  /** The novelty cells of a results row. */
  datatype NoveltyCells = NoveltyCells(
    numNovelStates: Maybe<nat>,
    numNotNovelStates: Maybe<nat>,
    percentageNovelStates: Maybe<Number>,
    numUniqueFacts: Maybe<nat>,
    numNovelMethods: Maybe<nat>,
    numNotNovelMethods: Maybe<nat>)

  /**
   * The novelty cells: filled from the solver's counters when the solver is a
   * `PartialOrderNoveltySolver` or one of its subclasses (`isNoveltySolver`), and all
   * N/A otherwise. `numUniqueFacts` is the number of facts the shared novelty record
   * has seen.
   */
  function NoveltyFields(isNoveltySolver: bool, c: NoveltyCounters, numUniqueFacts: nat): (r: NoveltyCells)
    ensures !isNoveltySolver <==> r == NoveltyCells(NA, NA, NA, NA, NA, NA)
    ensures isNoveltySolver ==>
      && r.numNovelStates == Value(c.numNovelStates)
      && r.numNotNovelStates == Value(c.numNotNovelStates)
      && r.percentageNovelStates == Value(PercentageNovelStates(c.numNovelStates, c.numNotNovelStates))
      && r.numUniqueFacts == Value(numUniqueFacts)
      && r.numNovelMethods == Value(c.numNovelMethods)
      && r.numNotNovelMethods == Value(c.numNotNovelMethods)
  {
    if isNoveltySolver then
      NoveltyCells(Value(c.numNovelStates), Value(c.numNotNovelStates),
        Value(PercentageNovelStates(c.numNovelStates, c.numNotNovelStates)),
        Value(numUniqueFacts), Value(c.numNovelMethods), Value(c.numNotNovelMethods))
    else NoveltyCells(NA, NA, NA, NA, NA, NA)
  }

  /**
   * The novel-method cells, kept only by the methods-no-reset and Hamming-no-reset
   * solvers and their subclasses (`tracksMethodStates`), N/A otherwise.
   */
  function MethodStateFields(tracksMethodStates: bool, c: NoveltyCounters): (r: (Maybe<nat>, Maybe<nat>))
    ensures r.0.NA? <==> !tracksMethodStates
    ensures r.1.NA? <==> !tracksMethodStates
    ensures tracksMethodStates ==>
      r == (Value(c.numNovelMethodNotNovelState), Value(c.numNovelMethodsNovelState))
  {
    if tracksMethodStates then (Value(c.numNovelMethodNotNovelState), Value(c.numNovelMethodsNovelState))
    else (NA, NA)
  }

  /** The number of facts in the final state, N/A without a final model. */
  function ModelElements(model: Option<PlanModel>): (r: Maybe<nat>)
    ensures r.NA? <==> model.None?
    ensures model.Some? ==> r.v == model.value.stateElements
  {
    if model.Some? then Value(model.value.stateElements) else NA
  }

  // ---------------------------------------------------------------------------
  // Plan verification

  /** What PANDA's verifier prints, once line breaks are stripped, for a valid plan. */
  const PANDA_VERIFY_SUCCESSFUL_OUTPUT: string :=
    "IDs of subtasks used in the plan exist: trueTasks declared in plan actually exist and "
    + "can be instantiated as given: trueMethods don't contain duplicate subtasks: "
    + "trueMethods don't contain orphaned "
    + "tasks: trueMethods can be instantiated: trueOrder induced by methods is present in "
    + "plan: truePlan is executable: "
    + "truePlan verification result: true"

  predicate IsPrintable(c: char)
  {
    31 < c as int < 126
  }

  /** The verifier's output with every character outside codes 32..125 dropped. */
  function Printable(s: string): (r: string)
    ensures |r| <= |s|
    ensures forall k :: 0 <= k < |r| ==> IsPrintable(r[k])
    ensures forall k :: 0 <= k < |s| && IsPrintable(s[k]) ==> s[k] in r
  {
    if |s| == 0 then ""
    else Printable(s[..|s| - 1]) + (if IsPrintable(s[|s| - 1]) then [s[|s| - 1]] else "")
  }

  /** Filtering distributes over concatenation. */
  lemma {:induction false} PrintableAppend(a: string, b: string)
    ensures Printable(a + b) == Printable(a) + Printable(b)
    decreases |b|
  {
    if |b| > 0 {
      var b' := b[..|b| - 1];
      assert (a + b)[..|a + b| - 1] == a + b';
      PrintableAppend(a, b');
    } else {
      assert a + b == a;
    }
  }

  /** One character is kept exactly when it is printable; with `PrintableAppend` this fixes every input. */
  lemma PrintableOne(c: char)
    ensures Printable([c]) == if IsPrintable(c) then [c] else []
  {
    assert [c][..0] == "";
  }

  /** Each printable character is kept as often as it occurs, and no other character is. */
  lemma {:induction false} PrintableCounts(s: string)
    ensures forall c :: multiset(Printable(s))[c] == if IsPrintable(c) then multiset(s)[c] else 0
  {
    if |s| > 0 {
      var front, last := s[..|s| - 1], s[|s| - 1];
      PrintableCounts(front);
      assert s == front + [last];
      PrintableAppend(front, [last]);
      PrintableOne(last);
    }
  }

  /** Text that is already printable passes through unchanged, so filtering is idempotent. */
  lemma {:induction false} PrintableKeepsPrintable(s: string)
    requires forall k :: 0 <= k < |s| ==> IsPrintable(s[k])
    ensures Printable(s) == s
  {
    if |s| > 0 {
      PrintableKeepsPrintable(s[..|s| - 1]);
    }
  }

  /** Line breaks between the verifier's report lines vanish, joining the lines. */
  lemma LineBreaksVanish(a: string, b: string)
    ensures Printable(a + "\n" + b) == Printable(a) + Printable(b)
  {
    var nl := "\n";
    assert Printable(nl) == "" by {
      assert nl[..0] == "";
    }
    PrintableAppend(a, nl);
    PrintableAppend(a + nl, b);
  }

  /** `pat` occurs in `text` starting at index `i`. */
  predicate OccursAt(text: string, pat: string, i: int)
  {
    0 <= i <= |text| - |pat| && text[i..i + |pat|] == pat
  }

  /** `pat in text` for strings. */
  ghost predicate Contains(text: string, pat: string)
  {
    exists i :: OccursAt(text, pat, i)
  }

  /** The same test, scanning start positions from the left. */
  function ContainsFrom(text: string, pat: string, i: nat): bool
    decreases |text| - i
  {
    if i + |pat| > |text| then false
    else if text[i..i + |pat|] == pat then true
    else ContainsFrom(text, pat, i + 1)
  }

  lemma {:induction false} ContainsFromSpec(text: string, pat: string, i: nat)
    ensures ContainsFrom(text, pat, i) <==> exists j :: i <= j && OccursAt(text, pat, j)
    decreases |text| - i
  {
    if i + |pat| > |text| {
      assert forall j :: i <= j ==> !OccursAt(text, pat, j);
    } else if text[i..i + |pat|] == pat {
      assert OccursAt(text, pat, i);
    } else {
      ContainsFromSpec(text, pat, i + 1);
      assert !OccursAt(text, pat, i);
    }
  }

  /**
   * Whether the plan was verified: only a PANDA-verifiable model with a PANDA-format
   * tracker, on a platform other than win32, is written out and checked; the rest is
   * N/A. `stdout` is what the external verifier printed.
   */
  function Verification(model: Option<PlanModel>, platform: string, stdout: string): (r: Maybe<bool>)
    ensures r.NA? <==>
      model.None? || !model.value.isPandaVerifyModel || !model.value.hasPandaVerifyTracker
      || platform == "win32"
    ensures r == Value(true) <==>
      r.Value? && ContainsFrom(Printable(stdout), PANDA_VERIFY_SUCCESSFUL_OUTPUT, 0)
  {
    if model.Some? && model.value.isPandaVerifyModel && model.value.hasPandaVerifyTracker
      && platform != "win32"
    then
      var output := Printable(stdout);
      Value(ContainsFrom(output, PANDA_VERIFY_SUCCESSFUL_OUTPUT, 0))
    else NA
  }

  /** A checked plan is verified exactly when the filtered output holds the success text. */
  lemma VerifiedIffSuccessText(model: Option<PlanModel>, platform: string, stdout: string)
    requires Verification(model, platform, stdout).Value?
    ensures Verification(model, platform, stdout).v <==>
      Contains(Printable(stdout), PANDA_VERIFY_SUCCESSFUL_OUTPUT)
  {
    ContainsFromSpec(Printable(stdout), PANDA_VERIFY_SUCCESSFUL_OUTPUT, 0);
  }

  // ---------------------------------------------------------------------------
  // Problem name

  /**
   * The problem name: the part of the problem path after its second-to-last '/'
   * (`Rover/p02.hddl` for `../Domains/Rover/p02.hddl`). Fewer than two slashes is an
   * IndexError.
   */
  function ProblemName(path: string): (r: Result<string>)
    ensures r.Err? <==> Count(path, '/') < 2
    ensures r.Err? ==> r.error == IndexError
    ensures r.Ok? ==>
      && |r.value| < |path|
      && path[|path| - |r.value|..] == r.value
      && path[|path| - |r.value| - 1] == '/'
      && Count(r.value, '/') == 1
  {
    var slashes := Positions(path, '/');
    if |slashes| < 2 then Err(IndexError)
    else
      var start := slashes[|slashes| - 2] + 1;
      var name := path[start..];
      NameHasOneSlash(path, slashes, start, name);
      Ok(name)
  }

  lemma NameHasOneSlash(path: string, slashes: seq<nat>, start: nat, name: string)
    requires slashes == Positions(path, '/') && |slashes| >= 2
    requires start == slashes[|slashes| - 2] + 1 && name == path[start..]
    ensures Count(name, '/') == 1
  {
    var last := slashes[|slashes| - 1];
    assert slashes[|slashes| - 2] < last;
    forall i | 0 <= i < |name| && name[i] == '/'
      ensures i == last - start
    {
      SlashInName(path, slashes, start, name, i);
    }
    assert name[last - start] == '/';
    CountSingle(name, '/', last - start);
  }

  /** A slash after the second-to-last one is the last one. */
  lemma SlashInName(path: string, slashes: seq<nat>, start: nat, name: string, i: nat)
    requires slashes == Positions(path, '/') && |slashes| >= 2
    requires start == slashes[|slashes| - 2] + 1 && name == path[start..]
    requires i < |name| && name[i] == '/'
    ensures start + i == slashes[|slashes| - 1]
  {
    assert path[start + i] == '/';
    var k :| 0 <= k < |slashes| && slashes[k] == start + i;
    AboveSecondLast(slashes, k);
  }

  /** In a strictly rising sequence, only the last entry lies above the second-to-last. */
  lemma AboveSecondLast(ps: seq<nat>, k: nat)
    requires |ps| >= 2 && k < |ps|
    requires forall a, b :: 0 <= a < b < |ps| ==> ps[a] < ps[b]
    requires ps[|ps| - 2] < ps[k]
    ensures k == |ps| - 1
  {
  }
}
