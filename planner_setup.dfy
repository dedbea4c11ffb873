/**
 * The strategy catalog of the experiment harness: a strategy code picks the
 * planner components a controller is configured with, and the CSV file the run's
 * results are appended to.
 */
module PlannerSetup {
  import opened Common

  /** The solving algorithms the catalog chooses from. */
  datatype SolverVariant =
    | PartialOrderNoveltyLightSolver
    | PartialOrderNoveltySolver
    | PartialOrderNoveltyNoResetSolver
    | PartialOrderNoveltyLevelTwoSolver
    | PartialOrderNoveltyMethodsSolver
    | PartialOrderNoveltyMethodsOnlySolver
    | PartialOrderNoveltyMethodsNoResetSolver
    | PartialOrderNoveltyMethodsTasksSolver
    | PartialOrderNoveltyLevelTwoNoResetSolver
    | PartialOrderHammingNoveltySolver
    | PartialOrderHammingNoveltyNoResetSolver

  /** The search queues the catalog chooses from. */
  datatype QueueVariant =
    | GBFSSearchQueue
    | GBFSSearchQueueNewestFirst
    | NoveltyGBFSQueue
    | NoveltyGBFSOldestFirstQueue
    | NoveltyTreeDistanceGBFSSearchQueue
    | SearchQueueGBFSDualHammingDistance
    | SearchQueueGBFSDualTreeDistance
    | SearchQueueGBFSDualLandmarks

  /** The heuristics the catalog chooses from. */
  datatype HeuristicVariant =
    | HammingDistanceSeenStatesPruning
    | SeenStatesPruning
    | TreeDistanceSeenStatesPruning
    | TreeDistance
    | Landmarks
    | LandmarksNoReachability

  datatype ModelVariant = PandaVerifyModel

  datatype TrackerVariant = PandaVerifyFormatTracker

  /**
   * What one strategy code installs. `None` marks a setter the strategy never
   * calls, so the controller keeps whatever that field held before.
   */
  datatype Strategy = Strategy(
    solver: Option<SolverVariant>,
    searchQueue: Option<QueueVariant>,
    heuristic: Option<HeuristicVariant>,
    model: ModelVariant,
    progressTracker: TrackerVariant)

  /** The controller's five setters. */
  datatype Setter = SetSolver | SetSearchQueue | SetHeuristic | SetModel | SetProgressTracker

  const RESULTS_DIR: string := "results/"
  const CSV_SUFFIX: string := ".csv"

  /** The catalog: strategy codes 1 to 34 and nothing else. */
  function Catalog(code: int): (r: Option<Strategy>)
    ensures r.Some? <==> 1 <= code <= 34
    ensures r.Some? ==> r.value.model == PandaVerifyModel && r.value.progressTracker == PandaVerifyFormatTracker
  {
    if code == 1 then Some(Strategy(Some(PartialOrderNoveltyLightSolver), Some(GBFSSearchQueue), Some(HammingDistanceSeenStatesPruning), PandaVerifyModel, PandaVerifyFormatTracker))
    else if code == 2 then Some(Strategy(Some(PartialOrderNoveltyLightSolver), Some(GBFSSearchQueue), Some(SeenStatesPruning), PandaVerifyModel, PandaVerifyFormatTracker))
    else if code == 3 then Some(Strategy(Some(PartialOrderNoveltyLightSolver), Some(GBFSSearchQueue), Some(TreeDistanceSeenStatesPruning), PandaVerifyModel, PandaVerifyFormatTracker))
    else if code == 4 then Some(Strategy(Some(PartialOrderNoveltySolver), Some(NoveltyGBFSQueue), None, PandaVerifyModel, PandaVerifyFormatTracker))
    else if code == 5 then Some(Strategy(None, Some(GBFSSearchQueue), Some(TreeDistance), PandaVerifyModel, PandaVerifyFormatTracker))
    else if code == 6 then Some(Strategy(Some(PartialOrderNoveltySolver), Some(NoveltyTreeDistanceGBFSSearchQueue), Some(TreeDistanceSeenStatesPruning), PandaVerifyModel, PandaVerifyFormatTracker))
    else if code == 7 then Some(Strategy(Some(PartialOrderNoveltyLightSolver), Some(GBFSSearchQueueNewestFirst), Some(TreeDistanceSeenStatesPruning), PandaVerifyModel, PandaVerifyFormatTracker))
    else if code == 8 then Some(Strategy(None, Some(GBFSSearchQueueNewestFirst), Some(HammingDistanceSeenStatesPruning), PandaVerifyModel, PandaVerifyFormatTracker))
    else if code == 9 then Some(Strategy(None, Some(SearchQueueGBFSDualHammingDistance), Some(TreeDistanceSeenStatesPruning), PandaVerifyModel, PandaVerifyFormatTracker))
    else if code == 10 then Some(Strategy(Some(PartialOrderNoveltyNoResetSolver), Some(NoveltyGBFSQueue), None, PandaVerifyModel, PandaVerifyFormatTracker))
    else if code == 11 then Some(Strategy(Some(PartialOrderNoveltyLevelTwoSolver), Some(NoveltyGBFSQueue), None, PandaVerifyModel, PandaVerifyFormatTracker))
    else if code == 12 then Some(Strategy(Some(PartialOrderNoveltyMethodsSolver), Some(NoveltyGBFSQueue), None, PandaVerifyModel, PandaVerifyFormatTracker))
    else if code == 13 then Some(Strategy(Some(PartialOrderNoveltySolver), Some(NoveltyGBFSOldestFirstQueue), None, PandaVerifyModel, PandaVerifyFormatTracker))
    else if code == 14 then Some(Strategy(None, Some(GBFSSearchQueue), Some(Landmarks), PandaVerifyModel, PandaVerifyFormatTracker))
    else if code == 15 then Some(Strategy(Some(PartialOrderNoveltySolver), Some(NoveltyTreeDistanceGBFSSearchQueue), Some(HammingDistanceSeenStatesPruning), PandaVerifyModel, PandaVerifyFormatTracker))
    else if code == 16 then Some(Strategy(Some(PartialOrderNoveltyLevelTwoNoResetSolver), Some(NoveltyGBFSQueue), None, PandaVerifyModel, PandaVerifyFormatTracker))
    else if code == 17 then Some(Strategy(Some(PartialOrderNoveltyMethodsSolver), Some(NoveltyGBFSOldestFirstQueue), None, PandaVerifyModel, PandaVerifyFormatTracker))
    else if code == 18 then Some(Strategy(Some(PartialOrderNoveltyNoResetSolver), Some(NoveltyTreeDistanceGBFSSearchQueue), Some(TreeDistanceSeenStatesPruning), PandaVerifyModel, PandaVerifyFormatTracker))
    else if code == 19 then Some(Strategy(Some(PartialOrderNoveltyNoResetSolver), Some(NoveltyTreeDistanceGBFSSearchQueue), Some(HammingDistanceSeenStatesPruning), PandaVerifyModel, PandaVerifyFormatTracker))
    else if code == 20 then Some(Strategy(Some(PartialOrderNoveltySolver), Some(NoveltyTreeDistanceGBFSSearchQueue), Some(Landmarks), PandaVerifyModel, PandaVerifyFormatTracker))
    else if code == 21 then Some(Strategy(Some(PartialOrderNoveltyNoResetSolver), Some(NoveltyTreeDistanceGBFSSearchQueue), Some(Landmarks), PandaVerifyModel, PandaVerifyFormatTracker))
    else if code == 22 then Some(Strategy(None, Some(SearchQueueGBFSDualHammingDistance), Some(Landmarks), PandaVerifyModel, PandaVerifyFormatTracker))
    else if code == 23 then Some(Strategy(Some(PartialOrderNoveltyLightSolver), Some(SearchQueueGBFSDualTreeDistance), Some(Landmarks), PandaVerifyModel, PandaVerifyFormatTracker))
    else if code == 24 then Some(Strategy(Some(PartialOrderNoveltyLightSolver), Some(GBFSSearchQueueNewestFirst), Some(Landmarks), PandaVerifyModel, PandaVerifyFormatTracker))
    else if code == 25 then Some(Strategy(Some(PartialOrderNoveltyLightSolver), Some(SearchQueueGBFSDualTreeDistance), Some(HammingDistanceSeenStatesPruning), PandaVerifyModel, PandaVerifyFormatTracker))
    else if code == 26 then Some(Strategy(None, Some(SearchQueueGBFSDualLandmarks), Some(TreeDistanceSeenStatesPruning), PandaVerifyModel, PandaVerifyFormatTracker))
    else if code == 27 then Some(Strategy(None, Some(SearchQueueGBFSDualLandmarks), Some(HammingDistanceSeenStatesPruning), PandaVerifyModel, PandaVerifyFormatTracker))
    else if code == 28 then Some(Strategy(Some(PartialOrderNoveltyMethodsTasksSolver), Some(NoveltyGBFSQueue), None, PandaVerifyModel, PandaVerifyFormatTracker))
    else if code == 29 then Some(Strategy(Some(PartialOrderNoveltyMethodsTasksSolver), Some(NoveltyGBFSOldestFirstQueue), None, PandaVerifyModel, PandaVerifyFormatTracker))
    else if code == 30 then Some(Strategy(Some(PartialOrderHammingNoveltySolver), None, None, PandaVerifyModel, PandaVerifyFormatTracker))
    else if code == 31 then Some(Strategy(Some(PartialOrderHammingNoveltyNoResetSolver), None, None, PandaVerifyModel, PandaVerifyFormatTracker))
    else if code == 32 then Some(Strategy(Some(PartialOrderNoveltyMethodsNoResetSolver), Some(NoveltyGBFSQueue), None, PandaVerifyModel, PandaVerifyFormatTracker))
    else if code == 33 then Some(Strategy(Some(PartialOrderNoveltyMethodsOnlySolver), Some(NoveltyGBFSQueue), None, PandaVerifyModel, PandaVerifyFormatTracker))
    else if code == 34 then Some(Strategy(Some(PartialOrderNoveltyLightSolver), Some(GBFSSearchQueue), Some(LandmarksNoReachability), PandaVerifyModel, PandaVerifyFormatTracker))
    else None
  }

  // The stems of the results files, in catalog order.
  const HAMMING_DISTANCE_SEEN_STATES_RESULTS: string := "Hamming-Distance-seen-states-results"
  const SEEN_STATE_BREADTH_FIRST_RESULTS: string := "seen-state-breadth-first-results"
  const TREE_DISTANCE_SEEN_STATES_RESULTS: string := "Tree-Distance-seen-states-results"
  const NOVELTY_FACTS_ONLY_RESET_NEWEST_RESULTS: string := "Novelty_Facts_Only_reset-newest-results"
  const TREE_DISTANCE_RESULTS: string := "Tree-Distance-results"
  const NOVELTY_FACTS_ONLY_RESET_TREEDIS_RESULTS: string := "Novelty_Facts_Only_reset-TreeDis-results"
  const TREE_DISTANCE_SEEN_STATES_NEWEST_FIRST_RESULTS: string := "Tree-Distance-seen-states-newest-first-results"
  const HAMMING_DISTANCE_SEEN_STATES_NEWEST_FIRST_RESULTS: string := "Hamming-Distance-seen-states-newest-first-results"
  const TREE_DISTANCE_SEEN_STATES_HAMMING_DISTANCE_TIE_BREAKER_RESULTS: string := "Tree-Distance-seen-states-Hamming-Distance-tie-breaker-results"
  const NOVELTY_FACTS_ONLY_NO_RESET_RESULTS: string := "Novelty_Facts_Only_No-Reset-results"
  const NOVELTY_LEVEL2_RESET_RESULTS: string := "Novelty_level2_reset-results"
  const NOVELTY_FACTS_METHODS_RESULTS: string := "Novelty_Facts_Methods-results"
  const NOVELTY_FACTS_ONLY_RESET_OLDEST_FIRST_RESULTS: string := "Novelty_Facts_Only_reset-Oldest-First-results"
  const LANDMARKS_RESULTS: string := "Landmarks-results"
  const NOVELTY_FACTS_ONLY_RESET_HAMDIS_RESULTS: string := "Novelty_Facts_Only_reset-HamDis-results"
  const NOVELTY_LEVEL2_NO_RESET_RESULTS: string := "Novelty_level2_no_reset-results"
  const NOVELTY_FACTS_METHODS_OLDEST_FIRST_RESULTS: string := "Novelty_Facts_Methods_oldest_first-results"
  const NOVELTY_FACTS_ONLY_NO_RESET_TREEDIS_RESULTS: string := "Novelty_Facts_Only_no_reset-TreeDis-results"
  const NOVELTY_FACTS_ONLY_NO_RESET_HAMDIS_RESULTS: string := "Novelty_Facts_Only_no_reset-HamDis-results"
  const NOVELTY_FACTS_ONLY_RESET_LANDMARKS_RESULTS: string := "Novelty_Facts_Only_reset-Landmarks-results"
  const NOVELTY_FACTS_ONLY_NO_RESET_LANDMARKS_RESULTS: string := "Novelty_Facts_Only_no_reset-Landmarks-results"
  const LANDMARKS_HAMMING_DISTANCE_TIE_BREAKER_RESULTS: string := "Landmarks-Hamming-Distance-tie-breaker-results"
  const LANDMARKS_TREE_DISTANCE_TIE_BREAKER_RESULTS: string := "Landmarks-Tree-Distance-tie-breaker-results"
  const LANDMARKS_NEWEST_FIRST_RESULTS: string := "Landmarks-newest-first-results"
  const HAMMING_DISTANCE_SEEN_STATES_TREE_DISTANCE_TIE_BREAKER_RESULTS: string := "Hamming-Distance-seen-states-Tree-Distance-tie-breaker-results"
  const TREE_DISTANCE_SEEN_STATES_LANDMARKS_TIE_BREAKER_RESULTS: string := "Tree-Distance-seen-states-landmarks-tie-breaker-results"
  const HAMMING_DISTANCE_SEEN_STATES_LANDMARKS_TIE_BREAKER_RESULTS: string := "Hamming-Distance-seen-states-landmarks-tie-breaker-results"
  const NOVELTY_FACTS_METHODS_TASKS_RESULTS: string := "Novelty_Facts_Methods_Tasks-results"
  const NOVELTY_FACTS_METHODS_TASKS_OLDEST_FIRST_RESULTS: string := "Novelty_Facts_Methods_Tasks_oldest_first-results"
  const HAMMING_NOVELTY_RESET_NEWEST: string := "Hamming-Novelty-Reset-Newest"
  const HAMMING_NOVELTY_NO_RESET_NEWEST: string := "Hamming-Novelty-No-Reset-Newest"
  const NOVELTY_FACTS_METHODS_NO_RESET_RESULTS: string := "Novelty_Facts_Methods_No_Reset-results"
  const NOVELTY_METHODS_ONLY_RESET_NEWEST_RESULTS: string := "Novelty_Methods_Only_Reset_Newest-results"
  const LANDMARKS_NO_REACHABILITY_RESULTS: string := "Landmarks_No_Reachability-results"

  /** The file name of each strategy's results, without directory and extension. */
  function Stem(code: int): (s: string)
    requires 1 <= code <= 34
    ensures CodeOfStem(s) == Some(code)
  {
    if code == 1 then HAMMING_DISTANCE_SEEN_STATES_RESULTS
    else if code == 2 then SEEN_STATE_BREADTH_FIRST_RESULTS
    else if code == 3 then TREE_DISTANCE_SEEN_STATES_RESULTS
    else if code == 4 then NOVELTY_FACTS_ONLY_RESET_NEWEST_RESULTS
    else if code == 5 then TREE_DISTANCE_RESULTS
    else if code == 6 then NOVELTY_FACTS_ONLY_RESET_TREEDIS_RESULTS
    else if code == 7 then TREE_DISTANCE_SEEN_STATES_NEWEST_FIRST_RESULTS
    else if code == 8 then HAMMING_DISTANCE_SEEN_STATES_NEWEST_FIRST_RESULTS
    else if code == 9 then TREE_DISTANCE_SEEN_STATES_HAMMING_DISTANCE_TIE_BREAKER_RESULTS
    else if code == 10 then NOVELTY_FACTS_ONLY_NO_RESET_RESULTS
    else if code == 11 then NOVELTY_LEVEL2_RESET_RESULTS
    else if code == 12 then NOVELTY_FACTS_METHODS_RESULTS
    else if code == 13 then NOVELTY_FACTS_ONLY_RESET_OLDEST_FIRST_RESULTS
    else if code == 14 then LANDMARKS_RESULTS
    else if code == 15 then NOVELTY_FACTS_ONLY_RESET_HAMDIS_RESULTS
    else if code == 16 then NOVELTY_LEVEL2_NO_RESET_RESULTS
    else if code == 17 then NOVELTY_FACTS_METHODS_OLDEST_FIRST_RESULTS
    else if code == 18 then NOVELTY_FACTS_ONLY_NO_RESET_TREEDIS_RESULTS
    else if code == 19 then NOVELTY_FACTS_ONLY_NO_RESET_HAMDIS_RESULTS
    else if code == 20 then NOVELTY_FACTS_ONLY_RESET_LANDMARKS_RESULTS
    else if code == 21 then NOVELTY_FACTS_ONLY_NO_RESET_LANDMARKS_RESULTS
    else if code == 22 then LANDMARKS_HAMMING_DISTANCE_TIE_BREAKER_RESULTS
    else if code == 23 then LANDMARKS_TREE_DISTANCE_TIE_BREAKER_RESULTS
    else if code == 24 then LANDMARKS_NEWEST_FIRST_RESULTS
    else if code == 25 then HAMMING_DISTANCE_SEEN_STATES_TREE_DISTANCE_TIE_BREAKER_RESULTS
    else if code == 26 then TREE_DISTANCE_SEEN_STATES_LANDMARKS_TIE_BREAKER_RESULTS
    else if code == 27 then HAMMING_DISTANCE_SEEN_STATES_LANDMARKS_TIE_BREAKER_RESULTS
    else if code == 28 then NOVELTY_FACTS_METHODS_TASKS_RESULTS
    else if code == 29 then NOVELTY_FACTS_METHODS_TASKS_OLDEST_FIRST_RESULTS
    else if code == 30 then HAMMING_NOVELTY_RESET_NEWEST
    else if code == 31 then HAMMING_NOVELTY_NO_RESET_NEWEST
    else if code == 32 then NOVELTY_FACTS_METHODS_NO_RESET_RESULTS
    else if code == 33 then NOVELTY_METHODS_ONLY_RESET_NEWEST_RESULTS
    else LANDMARKS_NO_REACHABILITY_RESULTS
  }

  /** The path strategy `code` returns: `results/<stem>.csv`. */
  function Path(code: int): (p: string)
    requires 1 <= code <= 34
    ensures |p| == |RESULTS_DIR| + |Stem(code)| + |CSV_SUFFIX|
    ensures p[..|RESULTS_DIR|] == RESULTS_DIR
    ensures p[|p| - |CSV_SUFFIX|..] == CSV_SUFFIX
    ensures p[|RESULTS_DIR|..|p| - |CSV_SUFFIX|] == Stem(code)
  {
    RESULTS_DIR + Stem(code) + CSV_SUFFIX
  }

  /** The setter calls a strategy makes, in the order the catalog makes them. */
  function Calls(s: Strategy): seq<Setter>
  {
    (if s.solver.Some? then [SetSolver] else [])
    + (if s.searchQueue.Some? then [SetSearchQueue] else [])
    + (if s.heuristic.Some? then [SetHeuristic] else [])
    + [SetModel, SetProgressTracker]
  }

  function Rank(c: Setter): nat
  {
    match c
    case SetSolver => 0
    case SetSearchQueue => 1
    case SetHeuristic => 2
    case SetModel => 3
    case SetProgressTracker => 4
  }

  /**
   * Every strategy calls the setters in strictly increasing order of rank, so it calls
   * each setter at most once.
   */
  lemma CallsOrdered(s: Strategy)
    ensures forall i :: 0 < i < |Calls(s)| ==> Rank(Calls(s)[i - 1]) < Rank(Calls(s)[i])
  {
    var c := Calls(s);
    match (s.solver.Some?, s.searchQueue.Some?, s.heuristic.Some?)
    case (true, true, true) =>
      assert c == [SetSolver, SetSearchQueue, SetHeuristic, SetModel, SetProgressTracker];
    case (true, true, false) =>
      assert c == [SetSolver, SetSearchQueue, SetModel, SetProgressTracker];
    case (true, false, true) =>
      assert c == [SetSolver, SetHeuristic, SetModel, SetProgressTracker];
    case (true, false, false) =>
      assert c == [SetSolver, SetModel, SetProgressTracker];
    case (false, true, true) =>
      assert c == [SetSearchQueue, SetHeuristic, SetModel, SetProgressTracker];
    case (false, true, false) =>
      assert c == [SetSearchQueue, SetModel, SetProgressTracker];
    case (false, false, true) =>
      assert c == [SetHeuristic, SetModel, SetProgressTracker];
    case (false, false, false) =>
      assert c == [SetModel, SetProgressTracker];
  }

  /**
   * A strategy calls the solver, queue and heuristic setters exactly when it chooses
   * that component, and always ends by setting the model and the progress tracker.
   */
  lemma CallsChosen(s: Strategy)
    ensures Calls(s)[|Calls(s)| - 2..] == [SetModel, SetProgressTracker]
    ensures SetSolver in Calls(s) <==> s.solver.Some?
    ensures SetSearchQueue in Calls(s) <==> s.searchQueue.Some?
    ensures SetHeuristic in Calls(s) <==> s.heuristic.Some?
  {
    var c := Calls(s);
    match (s.solver.Some?, s.searchQueue.Some?, s.heuristic.Some?)
    case (true, true, true) =>
      assert c == [SetSolver, SetSearchQueue, SetHeuristic, SetModel, SetProgressTracker];
    case (true, true, false) =>
      assert c == [SetSolver, SetSearchQueue, SetModel, SetProgressTracker];
    case (true, false, true) =>
      assert c == [SetSolver, SetHeuristic, SetModel, SetProgressTracker];
    case (true, false, false) =>
      assert c == [SetSolver, SetModel, SetProgressTracker];
    case (false, true, true) =>
      assert c == [SetSearchQueue, SetHeuristic, SetModel, SetProgressTracker];
    case (false, true, false) =>
      assert c == [SetSearchQueue, SetModel, SetProgressTracker];
    case (false, false, true) =>
      assert c == [SetHeuristic, SetModel, SetProgressTracker];
    case (false, false, false) =>
      assert c == [SetModel, SetProgressTracker];
  }

  /** A call sequence whose ranks rise step by step rises overall. */
  lemma {:induction false} RisingRanks(c: seq<Setter>)
    requires forall i :: 0 < i < |c| ==> Rank(c[i - 1]) < Rank(c[i])
    ensures forall i, j :: 0 <= i < j < |c| ==> Rank(c[i]) < Rank(c[j])
  {
    if |c| > 1 {
      var rest := c[1..];
      assert forall i :: 0 < i < |rest| ==> rest[i - 1] == c[i] && rest[i] == c[i + 1];
      RisingRanks(rest);
      forall i, j | 0 <= i < j < |c|
        ensures Rank(c[i]) < Rank(c[j])
      {
        if i == 0 {
          if j > 1 {
            assert Rank(rest[0]) < Rank(rest[j - 1]);
          }
        } else {
          assert Rank(rest[i - 1]) < Rank(rest[j - 1]);
        }
      }
    }
  }

  /** No strategy calls a setter twice. */
  lemma CallsAtMostOnce(s: Strategy)
    ensures forall i, j :: 0 <= i < j < |Calls(s)| ==> Calls(s)[i] != Calls(s)[j]
  {
    CallsOrdered(s);
    RisingRanks(Calls(s));
  }

  /**
   * The codes that leave a component alone: 5, 8, 9, 14, 22, 26 and 27 never set a
   * solver, 30 and 31 never set a search queue, and thirteen codes never set a heuristic.
   */
  lemma UnsetComponents(code: int)
    requires 1 <= code <= 34
    ensures SetSolver !in Calls(Catalog(code).value) <==> code in {5, 8, 9, 14, 22, 26, 27}
    ensures SetSearchQueue !in Calls(Catalog(code).value) <==> code in {30, 31}
    ensures SetHeuristic !in Calls(Catalog(code).value)
      <==> code in {4, 10, 11, 12, 13, 16, 17, 28, 29, 30, 31, 32, 33}
  {
    CallsChosen(Catalog(code).value);
    NoSolverCodes(code);
    NoSearchQueueCodes(code);
    NoHeuristicCodes(code);
  }

  lemma NoSolverCodes(code: int)
    requires 1 <= code <= 34
    ensures Catalog(code).value.solver.None? <==> code in {5, 8, 9, 14, 22, 26, 27}
  {
  }

  lemma NoSearchQueueCodes(code: int)
    requires 1 <= code <= 34
    ensures Catalog(code).value.searchQueue.None? <==> code in {30, 31}
  {
  }

  lemma NoHeuristicCodes(code: int)
    requires 1 <= code <= 34
    ensures Catalog(code).value.heuristic.None? <==> code in {4, 10, 11, 12, 13, 16, 17, 28, 29, 30, 31, 32, 33}
  {
  }

  /** The strategy whose results file has this stem, if any: the inverse of the stem table. */
  ghost function CodeOfStem(s: string): Option<int>
  {
    if |s| < 39 then
      if |s| < 31 then
        if |s| < 28 then
          if |s| < 21 then
            if |s| == 17 then Some(14) else None
          else
            if |s| == 21 then Some(5) else None
        else
          if |s| < 29 then
            if |s| == 28 then if s[27] == 's' then Some(11) else if s[27] == 't' then Some(30) else None else None
          else
            if |s| < 30 then
              if |s| == 29 then Some(12) else None
            else
              if |s| == 30 then Some(24) else None
      else
        if |s| < 35 then
          if |s| < 32 then
            if |s| == 31 then if s[30] == 's' then Some(16) else if s[30] == 't' then Some(31) else None else None
          else
            if |s| < 33 then
              if |s| == 32 then Some(2) else None
            else
              if |s| == 33 then if s[24] == 's' then Some(3) else if s[24] == 'y' then Some(34) else None else None
        else
          if |s| < 36 then
            if |s| == 35 then if s[26] == 't' then Some(10) else if s[26] == 's' then Some(28) else None else None
          else
            if |s| < 38 then
              if |s| == 36 then Some(1) else None
            else
              if |s| == 38 then Some(32) else None
    else
      if |s| < 46 then
        if |s| < 42 then
          if |s| < 40 then
            if |s| == 39 then if s[30] == 't' then Some(4) else if s[30] == 's' then Some(15) else None else None
          else
            if |s| < 41 then
              if |s| == 40 then Some(6) else None
            else
              if |s| == 41 then Some(33) else None
        else
          if |s| < 43 then
            if |s| == 42 then if s[32] == 's' then Some(17) else if s[32] == 'i' then Some(19) else if s[32] == 'k' then Some(20) else None else None
          else
            if |s| < 45 then
              if |s| == 43 then if s[34] == 's' then Some(18) else if s[34] == 'r' then Some(23) else None else None
            else
              if |s| == 45 then if s[36] == 't' then Some(13) else if s[36] == 's' then Some(21) else None else None
      else
        if |s| < 55 then
          if |s| < 48 then
            if |s| == 46 then if s[37] == 't' then Some(7) else if s[37] == 'r' then Some(22) else None else None
          else
            if |s| < 49 then
              if |s| == 48 then Some(29) else None
            else
              if |s| == 49 then Some(8) else None
        else
          if |s| < 58 then
            if |s| == 55 then Some(26) else None
          else
            if |s| < 62 then
              if |s| == 58 then Some(27) else None
            else
              if |s| == 62 then if s[32] == 'g' then Some(9) else if s[32] == 'e' then Some(25) else None else None
  }

  /** Different strategy codes write to different results files. */
  lemma PathsDistinct(a: int, b: int)
    requires 1 <= a <= 34 && 1 <= b <= 34 && a != b
    ensures Path(a) != Path(b)
  {
  }

  /**
   * The planner's controller, as far as the catalog configures it: one optional
   * field per component, and the ghost record of the setter calls made on it.
   */
  class Controller {
    var solver: Option<SolverVariant>
    var searchQueue: Option<QueueVariant>
    var heuristic: Option<HeuristicVariant>
    var model: Option<ModelVariant>
    var progressTracker: Option<TrackerVariant>
    ghost var calls: seq<Setter>

    /** A freshly built controller, before any strategy is installed. */
    constructor ()
      ensures solver == None && searchQueue == None && heuristic == None
      ensures model == None && progressTracker == None
      ensures calls == []
    {
      solver, searchQueue, heuristic := None, None, None;
      model, progressTracker := None, None;
      calls := [];
    }

    method SetSolver(v: SolverVariant)
      modifies this
      ensures solver == Some(v) && calls == old(calls) + [Setter.SetSolver]
      ensures searchQueue == old(searchQueue) && heuristic == old(heuristic)
      ensures model == old(model) && progressTracker == old(progressTracker)
    {
      solver := Some(v);
      calls := calls + [Setter.SetSolver];
    }

    method SetSearchQueue(v: QueueVariant)
      modifies this
      ensures searchQueue == Some(v) && calls == old(calls) + [Setter.SetSearchQueue]
      ensures solver == old(solver) && heuristic == old(heuristic)
      ensures model == old(model) && progressTracker == old(progressTracker)
    {
      searchQueue := Some(v);
      calls := calls + [Setter.SetSearchQueue];
    }

    method SetHeuristic(v: HeuristicVariant)
      modifies this
      ensures heuristic == Some(v) && calls == old(calls) + [Setter.SetHeuristic]
      ensures solver == old(solver) && searchQueue == old(searchQueue)
      ensures model == old(model) && progressTracker == old(progressTracker)
    {
      heuristic := Some(v);
      calls := calls + [Setter.SetHeuristic];
    }

    method SetModel(v: ModelVariant)
      modifies this
      ensures model == Some(v) && calls == old(calls) + [Setter.SetModel]
      ensures solver == old(solver) && searchQueue == old(searchQueue)
      ensures heuristic == old(heuristic) && progressTracker == old(progressTracker)
    {
      model := Some(v);
      calls := calls + [Setter.SetModel];
    }

    method SetProgressTracker(v: TrackerVariant)
      modifies this
      ensures progressTracker == Some(v) && calls == old(calls) + [Setter.SetProgressTracker]
      ensures solver == old(solver) && searchQueue == old(searchQueue)
      ensures heuristic == old(heuristic) && model == old(model)
    {
      progressTracker := Some(v);
      calls := calls + [Setter.SetProgressTracker];
    }
  }

  /** The field a setter that may or may not be called leaves behind. */
  function Installed<T>(choice: Option<T>, before: Option<T>): Option<T>
  {
    if choice.Some? then choice else before
  }

  /** Makes a strategy's setter calls on the controller, in the order the catalog makes them. */
  method Install(controller: Controller, s: Strategy)
    modifies controller
    ensures controller.solver == Installed(s.solver, old(controller.solver))
    ensures controller.searchQueue == Installed(s.searchQueue, old(controller.searchQueue))
    ensures controller.heuristic == Installed(s.heuristic, old(controller.heuristic))
    ensures controller.model == Some(s.model)
    ensures controller.progressTracker == Some(s.progressTracker)
    ensures controller.calls == old(controller.calls) + Calls(s)
  {
    if s.solver.Some? {
      controller.SetSolver(s.solver.value);
    }
    if s.searchQueue.Some? {
      controller.SetSearchQueue(s.searchQueue.value);
    }
    if s.heuristic.Some? {
      controller.SetHeuristic(s.heuristic.value);
    }
    controller.SetModel(s.model);
    controller.SetProgressTracker(s.progressTracker);
  }

  /**
   * Configures `controller` for strategy `code` and returns the results path. A code
   * outside 1..34 is a ValueError and the controller is left as it was.
   */
  method SetupController(controller: Controller, code: int) returns (r: Result<string>)
    modifies controller
    ensures r.Ok? <==> 1 <= code <= 34
    ensures r.Ok? ==>
      var s := Catalog(code).value;
      && r.value == Path(code)
      && controller.solver == Installed(s.solver, old(controller.solver))
      && controller.searchQueue == Installed(s.searchQueue, old(controller.searchQueue))
      && controller.heuristic == Installed(s.heuristic, old(controller.heuristic))
      && controller.model == Some(PandaVerifyModel)
      && controller.progressTracker == Some(PandaVerifyFormatTracker)
      && controller.calls == old(controller.calls) + Calls(s)
    ensures r.Err? ==>
      && r.error == ValueError("Unknown strategy code: " + IntToString(code))
      && controller.solver == old(controller.solver)
      && controller.searchQueue == old(controller.searchQueue)
      && controller.heuristic == old(controller.heuristic)
      && controller.model == old(controller.model)
      && controller.progressTracker == old(controller.progressTracker)
      && controller.calls == old(controller.calls)
  {
    var entry := Catalog(code);
    if entry.None? {
      r := Err(ValueError("Unknown strategy code: " + IntToString(code)));
    } else {
      Install(controller, entry.value);
      r := Ok(Path(code));
    }
  }
}
