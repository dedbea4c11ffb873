/**
 * The search phase of one experiment run: step the planner until it returns a plan
 * or the time budget is spent, and when it found none, fall back to the partial
 * plan that got furthest.
 */
module SearchDriver {
  import opened Common

  /**
   * What the harness reads from a plan model the planner hands back: how many
   * operations it has taken, how many facts its current state holds, and whether it
   * is a PANDA-verifiable model whose progress tracker writes the PANDA format.
   */
  datatype PlanModel = PlanModel(
    operationsTaken: int,
    stateElements: nat,
    isPandaVerifyModel: bool,
    hasPandaVerifyTracker: bool)

  /** The search budget in seconds. */
  const SEARCH_LIMIT: real := 500000.0

  /**
   * Runs search steps while the elapsed time is under the budget and no step has
   * returned a plan. `clock(k)` is the elapsed time when the loop guard is evaluated
   * for the k-th time and `step(k)` is what the k-th call of the planner's search step
   * returns (`None` for a falsy result). The loop ends once the budget is spent or a
   * step returns a plan, so the caller guarantees that one of the two happens.
   */
  method RunSearch(clock: nat -> real, step: nat -> Option<PlanModel>)
    returns (res: Option<PlanModel>, numExpansions: nat)
    requires exists n: nat :: clock(n) >= SEARCH_LIMIT || step(n).Some?
    ensures forall k: nat :: k < numExpansions ==> clock(k) < SEARCH_LIMIT
    ensures forall k: nat :: k + 1 < numExpansions ==> step(k).None?
    ensures res == if numExpansions == 0 then None else step(numExpansions - 1)
    ensures res.None? ==> clock(numExpansions) >= SEARCH_LIMIT
  {
    ghost var deadline: nat :| clock(deadline) >= SEARCH_LIMIT || step(deadline).Some?;
    res := None;
    numExpansions := 0;
    while clock(numExpansions) < SEARCH_LIMIT && res.None?
      invariant numExpansions <= deadline + 1
      invariant numExpansions == deadline + 1 ==> res.Some?
      invariant forall k: nat :: k < numExpansions ==> clock(k) < SEARCH_LIMIT
      invariant forall k: nat :: k + 1 < numExpansions ==> step(k).None?
      invariant res == if numExpansions == 0 then None else step(numExpansions - 1)
      decreases deadline + 1 - numExpansions
    {
      res := step(numExpansions);
      numExpansions := numExpansions + 1;
    }
  }

  /** The run counts as solved exactly when the search ended on a truthy result. */
  lemma SolvedIffPlanFound(clock: nat -> real, step: nat -> Option<PlanModel>,
                           res: Option<PlanModel>, numExpansions: nat)
    requires forall k: nat :: k + 1 < numExpansions ==> step(k).None?
    requires res == if numExpansions == 0 then None else step(numExpansions - 1)
    ensures res.Some? <==> exists k: nat :: k < numExpansions && step(k).Some?
  {
    if numExpansions > 0 {
      assert res == step(numExpansions - 1);
    }
  }

  /** `i` holds a model with the most operations, and every model before it has fewer. */
  predicate IsFirstMax(models: seq<PlanModel>, i: int)
  {
    && 0 <= i < |models|
    && (forall j :: 0 <= j < |models| ==> models[j].operationsTaken <= models[i].operationsTaken)
    && (forall j :: 0 <= j < i ==> models[j].operationsTaken < models[i].operationsTaken)
  }

  /** There is only one first maximum. */
  lemma FirstMaxUnique(models: seq<PlanModel>, i: int, k: int)
    requires IsFirstMax(models, i) && IsFirstMax(models, k)
    ensures i == k
  {
    assert models[i].operationsTaken == models[k].operationsTaken;
  }

  /**
   * The fallback when no plan was found: the first of the models with the most
   * operations taken (a later model replaces the current one only when it has
   * strictly more), or `None` for an empty list.
   */
  method BestModel(models: seq<PlanModel>) returns (best: Option<PlanModel>)
    ensures best.None? <==> |models| == 0
    ensures best.Some? ==> exists i :: IsFirstMax(models, i) && models[i] == best.value
  {
    if |models| == 0 {
      return None;
    }
    var b := 0;
    var k := 1;
    while k < |models|
      invariant 1 <= k <= |models|
      invariant 0 <= b < k
      invariant forall j :: 0 <= j < k ==> models[j].operationsTaken <= models[b].operationsTaken
      invariant forall j :: 0 <= j < b ==> models[j].operationsTaken < models[b].operationsTaken
    {
      if models[k].operationsTaken > models[b].operationsTaken {
        b := k;
      }
      k := k + 1;
    }
    best := Some(models[b]);
  }
}
