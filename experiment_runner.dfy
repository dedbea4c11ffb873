/**
 * One experiment run from end to end: configure a controller for a strategy code,
 * search, fall back to the furthest partial plan, measure coverage, novelty and plan
 * verification, and append the results row to the strategy's CSV file; and what the
 * results summariser later reads back from the rows written this way.
 */
module ExperimentRunner {
  import opened Common
  import opened PlannerSetup
  import opened SearchDriver
  import opened FactCoverage
  import opened Metrics
  import opened ResultsWriter
  import opened ResultsStats

  /**
   * What parsing the domain and problem files yields: the predicates with their
   * parameter types, the problem's objects, the type test `satisfies(t, o)`, and the
   * problem file's path.
   */
  datatype Problem<!T, !O> = Problem(
    problemPath: string,
    predicates: seq<Predicate<T>>,
    objects: seq<O>,
    satisfies: (T, O) -> bool)

  /**
   * How the planner behaves: the elapsed-time readings and search steps of the
   * search loop, the models its search record holds when no plan was found, which
   * solver kinds keep novelty and method-state counters (`None` is the solver the
   * runner starts with), the counters it ends with, and the number of facts the
   * shared novelty record has seen.
   */
  datatype Planner = Planner(
    clock: nat -> real,
    step: nat -> Option<PlanModel>,
    models: seq<PlanModel>,
    isNoveltySolver: Option<SolverVariant> -> bool,
    tracksMethodStates: Option<SolverVariant> -> bool,
    counters: NoveltyCounters,
    numUniqueFacts: nat)

  /**
   * What the host supplies: the measured setup and solve times, `sys.platform`, what
   * the external plan verifier prints, and Python's `repr` of a float.
   */
  datatype Host = Host(
    setupTime: real,
    solveTime: real,
    platform: string,
    verifierOutput: string,
    showReal: real -> string)

  /**
   * `run_test`: the results row of one problem under one strategy, appended to the
   * strategy's results file. An unknown strategy code ends the run with ValueError
   * before anything else happens; otherwise the run goes on as `RunConfigured`
   * describes, with the strategy's results path and solver.
   */
  method RunTest<T, O>(fs: FileSystem, problem: Problem<T, O>, strategy: int, planner: Planner, host: Host)
    returns (r: Result<Row>, ghost final: Option<PlanModel>, ghost solved: bool, ghost numExpansions: nat)
    requires fs.Valid()
    requires exists n: nat :: planner.clock(n) >= SEARCH_LIMIT || planner.step(n).Some?
    requires planner.isNoveltySolver(Some(PartialOrderNoveltySolver))
    requires planner.tracksMethodStates(Some(PartialOrderNoveltyMethodsNoResetSolver))
    requires planner.tracksMethodStates(Some(PartialOrderHammingNoveltyNoResetSolver))
    modifies fs
    ensures fs.Valid()
    ensures !(1 <= strategy <= 34) ==>
      r == Err(ValueError("Unknown strategy code: " + IntToString(strategy))) && unchanged(fs)
    ensures 1 <= strategy <= 34 ==>
      Ran(old(fs.files), fs.files, old(fs.dirs), fs.dirs, problem, Path(strategy), Catalog(strategy).value.solver,
          planner, host, r, final, solved, numExpansions)
  {
    var fileName, solver := Configure(strategy);
    if fileName.Err? {
      return Err(fileName.error), None, false, 0;
    }
    r, final, solved, numExpansions := RunConfigured(fs, problem, fileName.value, solver, planner, host);
  }

  /** `Runner(...)` followed by `setup_controller`: the results path and the solver installed. */
  method Configure(strategy: int) returns (r: Result<string>, solver: Option<SolverVariant>)
    ensures r.Ok? <==> 1 <= strategy <= 34
    ensures r.Ok? ==> r.value == Path(strategy) && solver == Catalog(strategy).value.solver
    ensures r.Err? ==> r == Err(ValueError("Unknown strategy code: " + IntToString(strategy)))
  {
    var controller := new Controller();
    r := SetupController(controller, strategy);
    solver := controller.solver;
  }

  /**
   * What a configured run does: the search loop ran while time was left and no step
   * returned a plan; the final model is the plan or else the first of the furthest
   * partial plans; the row, or the error that stops the run before the write, is
   * `Measurements` of that model; and the row is written to `fileName` as
   * `write_to_file` does (`Appended`), whose failure is an OSError.
   */
  ghost predicate Ran<T, O>(files0: map<string, string>, files: map<string, string>,
                            dirs0: set<string>, dirs: set<string>,
                            problem: Problem<T, O>, fileName: string, solver: Option<SolverVariant>,
                            planner: Planner, host: Host,
                            r: Result<Row>, final: Option<PlanModel>, solved: bool, numExpansions: nat)
  {
    var m := Measurements(problem, solver, planner, host, final, solved, numExpansions);
    && (forall k: nat :: k < numExpansions ==> planner.clock(k) < SEARCH_LIMIT)
    && (forall k: nat :: k + 1 < numExpansions ==> planner.step(k).None?)
    && (!solved ==> planner.clock(numExpansions) >= SEARCH_LIMIT)
    && (solved <==> exists k: nat :: k < numExpansions && planner.step(k).Some?)
    && (solved ==> final == planner.step(numExpansions - 1))
    && (!solved ==> (final.None? <==> |planner.models| == 0))
    && (!solved && final.Some? ==>
          exists i :: IsFirstMax(planner.models, i) && planner.models[i] == final.value)
    && (m.Err? ==> r == m && files == files0 && dirs == dirs0)
    && (m.Ok? ==>
          && (r.Ok? ==> r == m)
          && (r.Err? ==> r.error.OSError?)
          && Appended(files0, dirs0, fileName, RowLine(m.value, host.showReal), r.Ok?, files, dirs))
  }

  method RunConfigured<T, O>(fs: FileSystem, problem: Problem<T, O>, fileName: string,
                             solver: Option<SolverVariant>, planner: Planner, host: Host)
    returns (r: Result<Row>, ghost final: Option<PlanModel>, ghost solved: bool, ghost numExpansions: nat)
    requires fs.Valid()
    requires exists n: nat :: planner.clock(n) >= SEARCH_LIMIT || planner.step(n).Some?
    modifies fs
    ensures fs.Valid()
    ensures Ran(old(fs.files), fs.files, old(fs.dirs), fs.dirs, problem, fileName, solver, planner, host,
                r, final, solved, numExpansions)
  {
    var res, steps := RunSearch(planner.clock, planner.step);
    SolvedIffPlanFound(planner.clock, planner.step, res, steps);
    var isSolved := true;
    if res.None? {
      isSolved := false;
      res := BestModel(planner.models);
    }
    final, solved, numExpansions := res, isSolved, steps;

    var measured := MeasureRun(problem, solver, planner, host, res, isSolved, steps);
    if measured.Err? {
      return measured, final, solved, numExpansions;
    }
    var written := WriteToFile(fs, measured.value, fileName, host.showReal);
    if written.Err? {
      return Err(written.error), final, solved, numExpansions;
    }
    r := measured;
  }

  /**
   * The row `run_test` writes once the search is over, for the final model `res` (the
   * plan found or the fallback) and the controller's solver field `solver`; or the
   * error that stops the run before the write.
   */
  function Measurements<T, O>(problem: Problem<T, O>, solver: Option<SolverVariant>, planner: Planner,
                              host: Host, res: Option<PlanModel>, solved: bool, numExpansions: nat)
    : Result<Row>
  {
    var n := SumCounts(problem.predicates, problem.objects, problem.satisfies);
    var actualPairs := if res.Some? then Value(Comb2(res.value.stateElements)) else NA;
    match CoveragePercentages(res, n, Comb2(n), actualPairs)
    case Err(e) => Err(e)
    case Ok(shares) =>
      var novelty := NoveltyFields(planner.isNoveltySolver(solver), planner.counters, planner.numUniqueFacts);
      var methodStates := MethodStateFields(planner.tracksMethodStates(solver), planner.counters);
      match ProblemName(problem.problemPath)
      case Err(e) => Err(e)
      case Ok(name) =>
        Ok(Row(
          name, numExpansions, host.solveTime, host.setupTime,
          n, ModelElements(res), shares.0, Comb2(n), actualPairs, shares.1,
          novelty.numNovelStates, novelty.numNotNovelStates, novelty.percentageNovelStates,
          novelty.numUniqueFacts, novelty.numNovelMethods, novelty.numNotNovelMethods,
          methodStates.0, methodStates.1, solved, Verification(res, host.platform, host.verifierOutput)))
  }

  /** The measuring part of `run_test`, which grounds the facts with its loops. */
  method MeasureRun<T, O>(problem: Problem<T, O>, solver: Option<SolverVariant>, planner: Planner,
                          host: Host, res: Option<PlanModel>, solved: bool, numExpansions: nat)
    returns (r: Result<Row>)
    ensures r == Measurements(problem, solver, planner, host, res, solved, numExpansions)
  {
    var coverage := CalculatePossibleFactsAndPairings(
      problem.predicates, problem.objects, problem.satisfies, res);
    var numPossibleFacts := |coverage.possibleFacts|;
    var percentages := CoveragePercentages(res, numPossibleFacts, coverage.totalPossiblePairs,
                                           coverage.totalActualPairs);
    if percentages.Err? {
      return Err(percentages.error);
    }

    var novelty := NoveltyFields(planner.isNoveltySolver(solver), planner.counters, planner.numUniqueFacts);
    var modelElements := ModelElements(res);
    var methodStates := MethodStateFields(planner.tracksMethodStates(solver), planner.counters);
    var verified := Verification(res, host.platform, host.verifierOutput);

    var name := ProblemName(problem.problemPath);
    if name.Err? {
      return Err(name.error);
    }
    r := Ok(Row(
      name.value, numExpansions, host.solveTime, host.setupTime,
      numPossibleFacts, modelElements, percentages.value.0,
      coverage.totalPossiblePairs, coverage.totalActualPairs, percentages.value.1,
      novelty.numNovelStates, novelty.numNotNovelStates, novelty.percentageNovelStates,
      novelty.numUniqueFacts, novelty.numNovelMethods, novelty.numNotNovelMethods,
      methodStates.0, methodStates.1, solved, verified));
  }

  /**
   * A run stops before the write with ZeroDivisionError exactly when it has a final
   * model and fewer than two possible facts, and with IndexError exactly when it gets
   * past that and the problem path has fewer than two slashes.
   */
  lemma MeasurementsErrors<T, O>(problem: Problem<T, O>, solver: Option<SolverVariant>, planner: Planner,
                                 host: Host, res: Option<PlanModel>, solved: bool, numExpansions: nat)
    ensures var m := Measurements(problem, solver, planner, host, res, solved, numExpansions);
      var n := SumCounts(problem.predicates, problem.objects, problem.satisfies);
      && (m.Err? ==> m.error == ZeroDivisionError || m.error == IndexError)
      && (m == Err(ZeroDivisionError) <==> res.Some? && n < 2)
      && (m == Err(IndexError) <==> !(res.Some? && n < 2) && Count(problem.problemPath, '/') < 2)
  {
    if res.Some? {
      CoverageFailsIffFewerThanTwoFacts(res, SumCounts(problem.predicates, problem.objects, problem.satisfies));
    }
  }

  /**
   * The coverage counts of a measured row: the number of possible facts and of their
   * pairs, and the final state's facts and fact pairs, N/A without a final model.
   */
  lemma MeasurementsCounts<T, O>(problem: Problem<T, O>, solver: Option<SolverVariant>, planner: Planner,
                                 host: Host, res: Option<PlanModel>, solved: bool, numExpansions: nat)
    requires Measurements(problem, solver, planner, host, res, solved, numExpansions).Ok?
    ensures var row := Measurements(problem, solver, planner, host, res, solved, numExpansions).value;
      var n := SumCounts(problem.predicates, problem.objects, problem.satisfies);
      && row.allFacts == n == |AllFacts(problem.predicates, problem.objects, problem.satisfies)|
      && row.possiblePairs == Comb2(n)
      && (res.None? <==> row.actualFacts.NA?)
      && (res.None? <==> row.actualPairs.NA?)
      && (res.Some? ==>
            row.actualFacts == Value(res.value.stateElements)
            && row.actualPairs == Value(Comb2(res.value.stateElements)))
  {
    FactCount(problem.predicates, problem.objects, problem.satisfies);
  }

  /**
   * The coverage shares of a measured row: with a final model there are at least two
   * possible facts, and the shares are its state's facts and fact pairs in percent of
   * the possible ones; without one they are N/A.
   */
  lemma MeasurementsShares<T, O>(problem: Problem<T, O>, solver: Option<SolverVariant>, planner: Planner,
                                 host: Host, res: Option<PlanModel>, solved: bool, numExpansions: nat)
    requires Measurements(problem, solver, planner, host, res, solved, numExpansions).Ok?
    ensures var row := Measurements(problem, solver, planner, host, res, solved, numExpansions).value;
      var n := SumCounts(problem.predicates, problem.objects, problem.satisfies);
      && (res.None? ==> row.percentageFacts.NA? && row.percentagePairs.NA?)
      && (res.Some? ==>
            && n >= 2
            && row.percentageFacts == Value(res.value.stateElements as real / n as real * 100.0)
            && row.percentagePairs == Value(Comb2(res.value.stateElements) as real / Comb2(n) as real * 100.0))
  {
    var n := SumCounts(problem.predicates, problem.objects, problem.satisfies);
    var actualPairs := if res.Some? then Value(Comb2(res.value.stateElements)) else NA;
    var shares := CoveragePercentages(res, n, Comb2(n), actualPairs);
    assert shares.Ok?;
    var row := Measurements(problem, solver, planner, host, res, solved, numExpansions).value;
    assert row.percentageFacts == shares.value.0 && row.percentagePairs == shares.value.1;
    if res.Some? {
      MeasurementsErrors(problem, solver, planner, host, res, solved, numExpansions);
    }
  }

  /**
   * The novelty and method-state cells are filled exactly for the solver kinds that
   * keep them, the novel-state share lies between 0 and 100, and the plan is checked
   * only for a PANDA model off win32, verified exactly when the filtered output holds
   * the success text.
   */
  lemma MeasurementsSolverCells<T, O>(problem: Problem<T, O>, solver: Option<SolverVariant>, planner: Planner,
                                      host: Host, res: Option<PlanModel>, solved: bool, numExpansions: nat)
    requires Measurements(problem, solver, planner, host, res, solved, numExpansions).Ok?
    ensures var row := Measurements(problem, solver, planner, host, res, solved, numExpansions).value;
      && row.numberExpansions == numExpansions && row.solved == solved
      && row.solveTime == host.solveTime && row.setupTime == host.setupTime
      && (row.numNovelStates.Value? <==> planner.isNoveltySolver(solver))
      && (row.percentageNovelStates.Value? ==> 0.0 <= row.percentageNovelStates.v.Val() <= 100.0)
      && (row.numNovelMethodNotNovelState.Value? <==> planner.tracksMethodStates(solver))
      && (row.numNovelMethodsNovelState.Value? <==> planner.tracksMethodStates(solver))
      && (row.verified.Value? ==> host.platform != "win32" && res.Some?)
      && (row.verified.Value? ==>
            (row.verified.v <==> Contains(Printable(host.verifierOutput), PANDA_VERIFY_SUCCESSFUL_OUTPUT)))
  {
    var row := Measurements(problem, solver, planner, host, res, solved, numExpansions).value;
    if row.verified.Value? {
      VerifiedIffSuccessText(res, host.platform, host.verifierOutput);
    }
  }

  /**
   * A measured row is filed under the problem file's name below its domain folder,
   * which holds exactly one '/'.
   */
  lemma MeasurementsName<T, O>(problem: Problem<T, O>, solver: Option<SolverVariant>, planner: Planner,
                               host: Host, res: Option<PlanModel>, solved: bool, numExpansions: nat)
    requires Measurements(problem, solver, planner, host, res, solved, numExpansions).Ok?
    ensures var row := Measurements(problem, solver, planner, host, res, solved, numExpansions).value;
      && ProblemName(problem.problemPath) == Ok(row.problem)
      && Count(row.problem, '/') == 1
      && '/' in row.problem
  {
    var name := ProblemName(problem.problemPath);
    CountedOccurs(name.value, '/');
  }

  // ---------------------------------------------------------------------------
  // Reading written rows back

  /** Rendered cells other than the problem name hold neither a backslash nor a line break. */
  lemma RenderFree(c: Cell, showReal: real -> string, ch: char)
    requires !c.Text?
    requires ch == '\\' || ch == '\n'
    requires forall x :: ch !in showReal(x)
    ensures ch !in Render(c, showReal)
  {
    match c
    case Whole(i) =>
      var t := IntToString(i);
      assert forall k :: 0 <= k < |t| ==> t[k] != ch;
    case Real(x) =>
    case Flag(b) =>
    case Missing =>
  }

  lemma RowLineFree(row: Row, showReal: real -> string, ch: char)
    requires ch == '\\' || ch == '\n'
    requires ch !in row.problem
    requires forall x :: ch !in showReal(x)
    ensures var ts := RenderAll(Cells(row), showReal);
      forall k :: 0 <= k < |ts| ==> ch !in ts[k]
  {
    var cs := Cells(row);
    var ts := RenderAll(cs, showReal);
    forall k | 0 <= k < |ts|
      ensures ch !in ts[k]
    {
      if k > 0 {
        RenderFree(cs[k], showReal, ch);
      }
    }
  }

  /**
   * The summariser files a written row under the text of its problem name before the
   * first '/': the domain folder, for a name `run_test` produced.
   */
  lemma RowDomain(row: Row, showReal: real -> string, tail: string)
    requires '/' in row.problem
    ensures DomainOf(RowLine(row, showReal)[1..] + tail) == row.problem[..Find(row.problem, '/')]
  {
    var ts := RenderAll(Cells(row), showReal);
    var line := RowLine(row, showReal)[1..] + tail;
    assert RowLine(row, showReal)[1..] == Join(ts, ',');
    JoinHead(ts, ',', tail);
    PrefixDomain(row.problem, line);
  }

  /** A join, and whatever follows it, starts with the first piece. */
  lemma JoinHead(parts: seq<string>, sep: char, tail: string)
    requires |parts| >= 1
    ensures |parts[0]| <= |Join(parts, sep) + tail|
    ensures (Join(parts, sep) + tail)[..|parts[0]|] == parts[0]
  {
  }

  /** A line that starts with a name holding a '/' has the name's text before it as its domain. */
  lemma PrefixDomain(p: string, line: string)
    requires '/' in p && |p| <= |line| && line[..|p|] == p
    ensures DomainOf(line) == p[..Find(p, '/')]
  {
    var f := Find(p, '/');
    assert line[f] == p[f];
    assert line[..f] == p[..f];
    FindFirst(line, '/', f);
  }

  /**
   * Every row is written after a line break, so the last row of a results file has
   * none: its flag is cut to "Tru" and the summariser counts it as unsolved with
   * score 0, whatever the run found.
   */
  lemma LastRowCountsUnsolved(before: string, row: Row, showReal: real -> string,
                              parseFloat: string -> Option<real>, logRatio: real -> real)
    requires row.solved
    requires '\\' !in row.problem && '\n' !in row.problem
    requires forall x :: '\\' !in showReal(x) && '\n' !in showReal(x)
    ensures var ls := Lines(before + RowLine(row, showReal));
      && |ls| > 0
      && SolvedField(ls[|ls| - 1]) == "Tru"
      && LineResult(ls[|ls| - 1], parseFloat, logRatio) == Ok((false, Int(0)))
  {
    var pre := SolvedRowBody(row, showReal);
    LastLineIsBody(before, row, showReal);
    SolvedLastRowReadsTru(pre, parseFloat, logRatio);
  }

  /** A solved row's cells joined: the text before the last comma has no backslash. */
  lemma SolvedRowBody(row: Row, showReal: real -> string) returns (pre: string)
    requires row.solved
    requires '\\' !in row.problem
    requires forall x :: '\\' !in showReal(x)
    ensures '\\' !in pre
    ensures Join(RenderAll(Cells(row), showReal), ',') == pre + ",True"
  {
    var ts := RenderAll(Cells(row), showReal);
    SolvedCellLast(row, showReal);
    JoinLast(ts, ',');
    pre := Join(ts[..19], ',');
    RowLineFree(row, showReal, '\\');
    FrontFree(ts, ',', '\\');
  }

  /** The last cell of a solved row reads "True". */
  lemma SolvedCellLast(row: Row, showReal: real -> string)
    requires row.solved
    ensures var ts := RenderAll(Cells(row), showReal); |ts| == 20 && ts[19] == "True"
  {
    var cs := Cells(row);
    assert Render(cs[19], showReal) == "True";
  }

  /** Pieces free of `c` joined without the last one: still free of `c`. */
  lemma FrontFree(parts: seq<string>, sep: char, c: char)
    requires c != sep && |parts| > 0
    requires forall k :: 0 <= k < |parts| ==> c !in parts[k]
    ensures c !in Join(parts[..|parts| - 1], sep)
  {
    var front := parts[..|parts| - 1];
    assert forall k :: 0 <= k < |front| ==> front[k] == parts[k];
    JoinNoChar(front, sep, c);
  }

  /** The last line of a file that ends with a written row is that row's cells. */
  lemma LastLineIsBody(before: string, row: Row, showReal: real -> string)
    requires '\n' !in row.problem
    requires forall x :: '\n' !in showReal(x)
    ensures var ls := Lines(before + RowLine(row, showReal));
      |ls| > 0 && ls[|ls| - 1] == Join(RenderAll(Cells(row), showReal), ',')
  {
    var ts := RenderAll(Cells(row), showReal);
    var body := Join(ts, ',');
    RowLineFree(row, showReal, '\n');
    JoinNoChar(ts, ',', '\n');
    JoinHead(ts, ',', "");
    assert |body| > 0;
    assert before + RowLine(row, showReal) == (before + "\n") + body;
    LinesAppendLast(before + "\n", body);
  }
}
