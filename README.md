# EPICpy evaluation harness, modelled in Dafny

EPICpy-Evaluation is a harness for benchmarking an HTN planner (EPICpy) under
34 planner configurations. This project models the harness's own logic and proves
properties of it. The planner is treated as an opaque oracle.

- **Strategy catalog** (`setup_controller`).
  - A strategy code picks a solver, a search queue, a heuristic, a plan model and a
    progress tracker.
  - It installs them on the planner controller through its setters, and returns the
    path of the strategy's results file.
  - Any other code raises ValueError and leaves the controller as it was.
- **One benchmark run** (`run_test`).
  - The search loop counts expansions until a plan is found or the time budget runs
    out.
  - When no plan is found, the partial model with the most operations is the final
    model; the first such model wins a tie.
  - The run counts the possible ground facts and the fact pairs, and computes the
    coverage percentages.
  - It gathers the novelty counters (or N/A) and filters the plan verifier's output.
  - It cuts the problem name out of the problem path.
- **The results writer** (`write_to_file`). It appends one CSV row of 20 cells to
  the results file. If the file does not exist yet, it first creates the file (and
  its top folder), with the header.
- **The results summariser** (`calculate_stats`).
  - It reads a results file and scores every row the way the International Planning
    Competition does.
  - It groups the scores by domain, in the order the domains first appear.
  - It writes an overview line, one line per domain and a total line over the start
    of the file.

The modules follow the three source files:

| module | file | source |
|---|---|---|
| `Common` | common.dfy | Python's string operations the code uses (`find`, `rfind`, slicing, `re.finditer`, `split`, `join`, `upper`, `str` of an int), and the Result/Option/N-A value types |
| `PlannerSetup` | planner_setup.dfy | `ExperiementRunnerPlannerSetup.py` |
| `SearchDriver` | search_driver.dfy | the search loop and best-model choice of `run_test` |
| `FactCoverage` | fact_coverage.dfy | `calculate_all_possible_facts_and_pairings` |
| `Metrics` | metrics.dfy | the percentages, N/A branches, verification and problem name of `run_test` |
| `ResultsWriter` | results_writer.dfy | `write_to_file`, over a file system of file texts and folders |
| `ResultsStats` | results_stats.dfy | `calculateResultsStats.py` |
| `ExperimentRunner` | experiment_runner.dfy | `run_test`, and how its rows read back through the summariser |

Where state changes in place, the model is imperative with the same structure as the
code:

- the controller is a class, with one method per setter;
- the file system is a class whose maps the writer and the summariser update;
- the search loop, the best-model scan, the grounding loops, the row loop and the
  domain loop are `while` loops.

Each method is proved against a pure specification function, and the properties are
proved about those functions.

Python values that can be an int or a float are a `Number`, so that `1` and `1.0`
print differently. A value that can be the string 'N/A' is a `Maybe`.

Three points follow the code where a reader might expect otherwise:

- **A predicate with no parameters has no ground facts, not one.** The code then
  takes the product over `[[]]`, which is empty (ExperimentRunner.py:184-188).
- **Scores have no lower clamp.** A solved problem's score is `min(1, 1 - log t / log
  1800)`, so a solve time above 1800 gives a negative score
  (calculateResultsStats.py:29-32).
- **The last row of a results file always counts as unsolved.** The flag is read up
  to `rfind('\\')`, and with no backslash in the line that drops the line's last
  character. Every other row still has its '\n', so dropping one character leaves
  the flag whole. The last row has no '\n' after it, so its "True" becomes "Tru"
  and counts as unsolved with score 0. `ExperimentRunner.LastRowCountsUnsolved`
  proves this for every row the writer produces.

## Model

| member | source | states |
|---|---|---|
| Common.Find | calculateResultsStats.py:23 | `str.find`: -1 exactly when the character is absent; otherwise an index holding it with no earlier occurrence |
| Common.FindFirst | calculateResultsStats.py:23 | an occurrence with none before it is the one `find` returns |
| Common.RFind | calculateResultsStats.py:22 | `str.rfind`: -1 exactly when absent; otherwise an index holding it with no later occurrence |
| Common.PySlice | calculateResultsStats.py:22 | Python slicing `s[i:j]`: never longer than `s`; in-range bounds give `s[i..j]`; an end at or past the length gives `s[i..]`; a negative end counts from the end; crossed bounds, a start past the end or an end before the start of the text give "" |
| Common.PySlicePiece | calculateResultsStats.py:22-23 | whatever the bounds, a slice is one contiguous piece of the text |
| Common.CountIsMultiplicity | calculateResultsStats.py:26 | `Count` (how many matches `re.finditer` yields for one character): the number of times the character occurs, its multiplicity in the text |
| Common.Positions | ExperimentRunner.py:146 | the `re.finditer` start positions of a character: strictly increasing, each a position holding it, every position holding it listed, as many as its count |
| Common.Split | ExperimentRunner.py:244 | `str.split`: at least one part, and no part holds the separator |
| Common.SplitJoin | ExperimentRunner.py:244 | splitting parts put together by `Join` with a separator none of them holds gives back the parts |
| Common.JoinSplit | ExperimentRunner.py:244 | joining the parts of a split gives back the text |
| Common.JoinLast | ExperimentRunner.py:262-277 | `Join` (the comma-separated cells of a row): the last part follows the last separator |
| Common.ThirdPiece | calculateResultsStats.py:26-27 | given the sorted list of every separator position, the text between the second and the third separator is the third piece of `split` |
| Common.Add | calculateResultsStats.py:51 | Python `+` on int/float: the value is the sum, and the result is an int exactly when both operands are |
| Common.NatToString | calculateResultsStats.py:53 | `str` of a non-negative int: at least one character, all decimal digits |
| Common.NatToStringRoundTrip | ExperimentRunner.py:262 | the decimal digits written for a natural number read back as that number |
| Common.IntToString | calculateResultsStats.py:45 | `str` of an int: at least one character; from a non-negative int only digits, reading back as the int; from a negative one a '-' followed by at least one digit, reading back as its magnitude |
| Common.Upper | calculateResultsStats.py:24 | `str.upper` on ASCII: same length; each lower-case letter becomes its upper-case letter, every other character stays; no lower-case letter is left, and text without one comes back unchanged |
| Common.UpperIsTrue | calculateResultsStats.py:24 | `solved.upper() == 'TRUE'` holds exactly for four characters t, r, u, e in any mix of cases |
| Common.BoolReadsBack | ExperimentRunner.py:277 | `BoolToString` (`str` of a bool, as the Verified and Solved cells are written) upper-cases to TRUE exactly for True |
| PlannerSetup.Catalog | ExperiementRunnerPlannerSetup.py:45-309 | a strategy exists exactly for codes 1 through 34, and each uses PandaVerifyModel and PandaVerifyFormatTracker |
| PlannerSetup.Stem | ExperiementRunnerPlannerSetup.py:58-307 | the 34 file stems are distinct: each determines its code |
| PlannerSetup.Path | ExperiementRunnerPlannerSetup.py:58-307 | every results path is "results/", then the code's stem, then ".csv" |
| PlannerSetup.PathsDistinct | ExperiementRunnerPlannerSetup.py:58-307 | two different codes return different paths |
| PlannerSetup.CallsChosen | ExperiementRunnerPlannerSetup.py:51-307 | every branch ends with set_model then set_progress_tracker, and calls set_solver / set_search_queue / set_heuristic exactly when its strategy names one |
| PlannerSetup.CallsOrdered | ExperiementRunnerPlannerSetup.py:51-307 | each branch calls its setters in the fixed order solver, queue, heuristic, model, tracker |
| PlannerSetup.CallsAtMostOnce | ExperiementRunnerPlannerSetup.py:51-307 | no branch calls a setter twice |
| PlannerSetup.UnsetComponents | ExperiementRunnerPlannerSetup.py:82-299 | set_solver is skipped exactly for codes 5, 8, 9, 14, 22, 26, 27; set_search_queue exactly for 30, 31; set_heuristic exactly for 4, 10-13, 16, 17, 28-33 |
| PlannerSetup.Controller.constructor | ExperimentRunner.py:34 | a new controller has no component installed and no setter called |
| PlannerSetup.Controller.SetSolver | ExperiementRunnerPlannerSetup.py:53 | installs the solver, records the call, changes no other component |
| PlannerSetup.Controller.SetSearchQueue | ExperiementRunnerPlannerSetup.py:54 | installs the search queue, records the call, changes no other component |
| PlannerSetup.Controller.SetHeuristic | ExperiementRunnerPlannerSetup.py:55 | installs the heuristic, records the call, changes no other component |
| PlannerSetup.Controller.SetModel | ExperiementRunnerPlannerSetup.py:56 | installs the plan model, records the call, changes no other component |
| PlannerSetup.Controller.SetProgressTracker | ExperiementRunnerPlannerSetup.py:57 | installs the progress tracker, records the call, changes no other component |
| PlannerSetup.Install | ExperiementRunnerPlannerSetup.py:51-307 | one branch's setter calls: the components the strategy names replace the old ones, the others stay, and the calls recorded are the strategy's |
| PlannerSetup.SetupController | ExperiementRunnerPlannerSetup.py:45-309 | codes 1-34 install their catalog entry and return their path; any other code gives ValueError("Unknown strategy code: n") and leaves the controller unchanged |
| SearchDriver.RunSearch | ExperimentRunner.py:51-60 | when some step has spent the 500000-second budget or returns a plan: the number of expansions is the number of steps taken; every step but the last found nothing; each step starts inside the budget; the result is the last step's; no plan means the budget ran out |
| SearchDriver.SolvedIffPlanFound | ExperimentRunner.py:56-64 | the run is solved exactly when some search step returned a plan |
| SearchDriver.BestModel | ExperimentRunner.py:62-73 | no model exactly for an empty list; otherwise the first model with the largest operation count |
| SearchDriver.FirstMaxUnique | ExperimentRunner.py:69-71 | the strict `>` makes the chosen model unique: the first among those with the largest count |
| FactCoverage.Extend | ExperimentRunner.py:188 | one step of `itertools.product` has as many tuples as the product of the two sizes |
| FactCoverage.ProductSize | ExperimentRunner.py:188 | `Product` (`itertools.product`) has as many tuples as the product of the option counts |
| FactCoverage.ProductMembers | ExperimentRunner.py:188 | a tuple is in `Product` exactly when it has one entry per option list, each taken from its list |
| FactCoverage.ProductOfEmptyOption | ExperimentRunner.py:183-188 | an empty option list makes the product empty |
| FactCoverage.ValidObjects | ExperimentRunner.py:176-182 | the candidates for a parameter are exactly the problem's objects that satisfy its type |
| FactCoverage.ValidObjectsCounts | ExperimentRunner.py:176-182 | each object that satisfies the type is a candidate as many times as it is listed among the objects, and any other object is never one |
| FactCoverage.NoFitNoCandidates | ExperimentRunner.py:176-182 | a type no object satisfies has no candidates |
| FactCoverage.FactCount | ExperimentRunner.py:169-193 | the number of `AllFacts` (the possible facts) is the sum, over the predicates, of the product of their parameters' candidate counts |
| FactCoverage.AllFactsMembers | ExperimentRunner.py:169-193 | a fact is in `AllFacts` exactly when it is one of `PredicateFacts` for some predicate of the domain |
| FactCoverage.NullaryPredicateNoFacts | ExperimentRunner.py:184-188 | a predicate without parameters, whose `Options` are the single empty list, contributes no fact |
| FactCoverage.UnfillableParameterNoFacts | ExperimentRunner.py:174-188 | a parameter with no candidate object makes its predicate contribute no fact |
| FactCoverage.PossibleFactsWellTyped | ExperimentRunner.py:174-191 | a fact is in `PredicateFacts` of a predicate with parameters exactly when it has one argument per parameter, each an object satisfying the parameter's type |
| FactCoverage.Comb2CountsPairs | ExperimentRunner.py:196-198 | `Comb2` (`comb(n, 2)`) counts the index pairs i < j < n |
| FactCoverage.ValidObjectsOf | ExperimentRunner.py:176-182 | the inner loop over the objects builds `valid_obs` |
| FactCoverage.ParameterOptions | ExperimentRunner.py:171-185 | the loop over the parameters builds `Options`: the candidates of each parameter in order, or `[[]]` for no parameters |
| FactCoverage.GroundAll | ExperimentRunner.py:189-191 | the loop over the combinations builds one fact per combination, in order |
| FactCoverage.CalculatePossibleFactsAndPairings | ExperimentRunner.py:158-203 | the possible facts are every predicate's groundings in order; their number is the sum of products; possible pairs are C(facts, 2); actual pairs are C(state elements, 2) with a model, else N/A |
| Metrics.CoveragePercentages | ExperimentRunner.py:78-83 | N/A for both without a model; with one, the fact and pair percentages, and ZeroDivisionError exactly when a divisor is 0 |
| Metrics.CoverageFailsIffFewerThanTwoFacts | ExperimentRunner.py:76-80 | with a model, the percentages fail exactly when there are fewer than two possible facts |
| Metrics.PercentageNovelStates | ExperimentRunner.py:89-92 | 0 (an int) when no state was counted; otherwise a float whose value times the number of states counted is 100 times the novel states, so the novel share times 100; always in [0, 100], 0 exactly with no novel state, 100 exactly with only novel states |
| Metrics.NoveltyFields | ExperimentRunner.py:86-103 | all six novelty cells are N/A exactly for a solver without novelty counters; otherwise the counters, the percentage and the unique-fact count |
| Metrics.MethodStateFields | ExperimentRunner.py:112-118 | the two method/state counters, or N/A for both exactly when the solver does not keep them |
| Metrics.ModelElements | ExperimentRunner.py:106-109 | the final state's fact count, N/A exactly without a model |
| Metrics.Printable | ExperimentRunner.py:134 | the filtered output is no longer than the input, holds only characters with 31 < code < 126, and holds every such character of the input |
| Metrics.PrintableAppend | ExperimentRunner.py:134 | the filter works piece by piece |
| Metrics.PrintableOne | ExperimentRunner.py:134 | one character is kept exactly when 31 < its code < 126, and dropped otherwise; with `PrintableAppend` this fixes the filter on every input, order included |
| Metrics.PrintableCounts | ExperimentRunner.py:134 | each character with 31 < code < 126 is kept as many times as it occurs, and every other character (tab, carriage return, '~', DEL, ...) never appears |
| Metrics.PrintableKeepsPrintable | ExperimentRunner.py:134 | text of printable characters passes unchanged |
| Metrics.LineBreaksVanish | ExperimentRunner.py:134 | a line break in the verifier output disappears, joining the text around it |
| Metrics.ContainsFromSpec | ExperimentRunner.py:137 | `ContainsFrom`, the substring search, succeeds exactly when the pattern occurs at some position |
| Metrics.Verification | ExperimentRunner.py:121-143 | N/A exactly without a model, with the wrong model or tracker kind, or on win32; true exactly when the filtered output holds the success message |
| Metrics.VerifiedIffSuccessText | ExperimentRunner.py:134-140 | when not N/A, verified is true exactly when the success message (the constant at ExperimentRunner.py lines 17-22) occurs in the filtered output |
| Metrics.ProblemName | ExperimentRunner.py:146-147 | IndexError exactly when the path has fewer than two slashes; otherwise a proper suffix of the path that follows a slash and holds exactly one slash |
| Metrics.NameHasOneSlash | ExperimentRunner.py:146-147 | the text after the second-to-last slash holds exactly one slash |
| ResultsWriter.Render | ExperimentRunner.py:261-277 | `format` of a cell: 'N/A' for a missing value, "True"/"False" for a flag, and no comma in any non-text cell |
| ResultsWriter.Cells | ExperimentRunner.py:262-277 | a row has 20 cells: the problem name first, then the numbers, then Verified and Solved last |
| ResultsWriter.RenderAll | ExperimentRunner.py:262-277 | every cell written in its place |
| ResultsWriter.HeaderNamesPlain | ExperimentRunner.py:251-259 | the 20 header names hold no comma and no line break |
| ResultsWriter.HeaderColumns | ExperimentRunner.py:251-259 | `Header` splits at its commas into the 20 column names, ending with Verified and Solved |
| ResultsWriter.RowColumns | ExperimentRunner.py:261-277 | `RowLine` after its line break splits into as many fields as the header, the problem name first, then the verified flag (or N/A) and the solved flag in the header's last two columns |
| ResultsWriter.TopFolder | ExperimentRunner.py:243-244 | `file_name.split('/')[0]`: the text before the first slash |
| ResultsWriter.FileSystem.constructor | ExperimentRunner.py:238 | a file system whose files and folders do not overlap |
| ResultsWriter.WriteToFile | ExperimentRunner.py:206-278 | the new files and folders are those `Appended` states: a file that `Exists` gains `RowLine` ("\n" and the row); a new file gets the header, then the row, after its missing top folder is made; opening a folder, making the folder "" or a file `CanCreate` rejects is OSError and changes no file; every failure is an OSError |
| ResultsWriter.NewFileLayout | ExperimentRunner.py:250-262 | a new file is the header line, a line break, then the row's cells joined by commas |
| ResultsWriter.HeaderHasNoLineBreak | ExperimentRunner.py:251-259 | the header is a single line |
| ResultsStats.LinesConcat | calculateResultsStats.py:20 | `Lines` (the lines `for line in file` yields) put back together are the file's text |
| ResultsStats.LinesShape | calculateResultsStats.py:20 | every line is non-empty and holds a line break only at its end |
| ResultsStats.LinesEnd | calculateResultsStats.py:20 | every line but the last ends with its line break |
| ResultsStats.LinesAppendLast | calculateResultsStats.py:20 | text without a line break written after a line break becomes the file's last line |
| ResultsStats.LinesAppend | calculateResultsStats.py:20 | after text that ends with a line break, the lines of what follows come next unchanged |
| ResultsStats.FlagBeforeLineBreak | calculateResultsStats.py:22 | `SolvedField` of a line that ends with a line break is exactly the last column |
| ResultsStats.FlagAtEndOfFile | calculateResultsStats.py:22 | `SolvedField` of a last line without a line break loses the flag's last character |
| ResultsStats.SolvedLastRowReadsTru | calculateResultsStats.py:22-34 | a last line ending ",True" reads its flag as "Tru", which is not TRUE, so it scores 0 as unsolved |
| ResultsStats.DomainBeforeSlash | calculateResultsStats.py:23 | `DomainOf` a line is the text before its first slash |
| ResultsStats.SolveTime | calculateResultsStats.py:26-27 | the solve time is `float` of the third comma-separated field, `line.split(',')[2]`: IndexError exactly when the line has fewer than three commas; otherwise a number exactly when that field parses, and ValueError when it does not |
| ResultsStats.Score | calculateResultsStats.py:29-32 | the int 1 below one second; otherwise min(1, 1 - log t / log 1800); never above 1 |
| ResultsStats.SlowSolveScoresNegative | calculateResultsStats.py:32 | a solve time whose log ratio exceeds 1 scores below 0 |
| ResultsStats.LineResultBranches | calculateResultsStats.py:24-34 | `LineResult`: a row is solved exactly when its flag upper-cases to TRUE; an unsolved row scores the int 0; a solved row fails exactly when its solve time cannot be read, and otherwise scores by the formula |
| ResultsStats.LineResult | calculateResultsStats.py:24-34 | a row's score is never above 1 |
| ResultsStats.ReadRows | calculateResultsStats.py:20-41 | when every row reads, there is one outcome per row |
| ResultsStats.ReadRowsByLine | calculateResultsStats.py:20-39 | when `ReadRows` succeeds, each row's outcome is its line's domain, flag and score |
| ResultsStats.ReadRowsSnoc | calculateResultsStats.py:20-41 | reading one more row keeps the rows read so far and adds the new one, or stops at the first error |
| ResultsStats.SumNumbers | calculateResultsStats.py:51-53 | `sum` of a score list: the sum of the values, an int exactly when each score is |
| ResultsStats.RecordPreserves | calculateResultsStats.py:36-40 | `Record`, filing one row, keeps the tally well formed, counts one more row and adds its score to the domain sums |
| ResultsStats.TallyInvariant | calculateResultsStats.py:15-41 | after all rows: the domains are listed once each and exactly the dictionary keys, the domain lists' lengths sum to the total, which is the number of rows, solved counts the solved rows, and the domain sums add up to the sum of all scores |
| ResultsStats.TallyFirstSeen | calculateResultsStats.py:36-38 | the listed domains are exactly the rows' domains, in the order each first appears |
| ResultsStats.TotalScore | calculateResultsStats.py:47-51 | the total score is the sum of the domain sums |
| ResultsStats.HeaderOnlyFails | calculateResultsStats.py:45 | a file with no row after its header fails with ZeroDivisionError |
| ResultsStats.SummaryShape | calculateResultsStats.py:13-57 | on success `SummaryText` has counted every line after the first (`DataLines`), and is the summary followed by the original content |
| ResultsStats.SummaryLines | calculateResultsStats.py:45-55 | `Summary` read back as lines is the `Overview` line, one `DomainLine` per domain in first-seen order, then the `TotalLine`: two more lines than domains, when no domain name or printed float holds a line break |
| ResultsStats.OverviewIsALine | calculateResultsStats.py:45 | the overview is one line, ending with its line break |
| ResultsStats.DomainLineIsALine | calculateResultsStats.py:53 | a domain line is one line when the domain name holds no line break |
| ResultsStats.TotalLineIsALine | calculateResultsStats.py:55 | the total line is one line |
| ResultsStats.SummaryCoversContent | calculateResultsStats.py:57 | the new text is at least as long as the old, so writing it from the start leaves nothing of the old text behind it |
| ResultsStats.CountRows | calculateResultsStats.py:15-41 | the row loop: skips the first line, files every later row, and stops at the first row that fails with its error |
| ResultsStats.FileRow | calculateResultsStats.py:25-40 | filing one row gives the tally of one more row |
| ResultsStats.DomainLines | calculateResultsStats.py:47-55 | the domain loop writes one line per domain in first-seen order, and sums the domain sums from the int 0 |
| ResultsStats.Summarise | calculateResultsStats.py:15-57 | the text written back is the overview, domain and total lines followed by the content read |
| ResultsStats.Rewrite | calculateResultsStats.py:12-57 | the file's new text is the summary text |
| ResultsStats.Store | calculateResultsStats.py:57-59 | the write replaces the file's text, or on an error leaves every file as it was |
| ResultsStats.CalculateStats | calculateResultsStats.py:5-59 | a missing path is OSError; otherwise the file becomes the summary text, or stays as it was when reading a row fails or there is no row |
| ExperimentRunner.Configure | ExperimentRunner.py:34-36 | the results path and solver of a known code, or ValueError for an unknown one |
| ExperimentRunner.RunConfigured | ExperimentRunner.py:39-155 | `Ran`: each step started inside the budget, every step before the last found nothing, and an unsolved run ended with the budget spent; solved exactly when a step returned a plan, which is then the final model, else the first of the furthest partial models; the row is `Measurements` of that model; a measuring error leaves every results file and folder as it was (the plan file written for the verifier is outside the model, see "## Left out"); otherwise the files and folders change as `Appended` states, and a failed write is an OSError |
| ExperimentRunner.RunTest | ExperimentRunner.py:25-155 | an unknown code fails with ValueError("Unknown strategy code: n") and changes nothing; a known code runs as `Ran` states, with its results path and solver |
| ExperimentRunner.MeasureRun | ExperimentRunner.py:76-147 | the measuring loops compute `Measurements`: the row, or the error that stops the run |
| ExperimentRunner.MeasurementsErrors | ExperimentRunner.py:76-147 | a run fails before the write only with ZeroDivisionError (a model and fewer than two possible facts) or IndexError (fewer than two slashes in the problem path) |
| ExperimentRunner.MeasurementsCounts | ExperimentRunner.py:76-109 | the row's fact counts, pair counts and state count, each N/A exactly without a model |
| ExperimentRunner.MeasurementsShares | ExperimentRunner.py:78-83 | the row's percentages: N/A without a model, else the shares times 100 |
| ExperimentRunner.MeasurementsSolverCells | ExperimentRunner.py:51-143 | the row holds the expansion count, solved flag and times; the novelty and method/state cells are set exactly for solvers that keep them; the novel-state percentage is in [0, 100]; verified is set only with a model off win32, and is true exactly when the success message occurs |
| ExperimentRunner.MeasurementsName | ExperimentRunner.py:146-147 | the row's problem name is the path after its second-to-last slash and holds exactly one slash |
| ExperimentRunner.RowDomain | calculateResultsStats.py:23 | the summariser's domain key for a written row is the problem name's text before its slash |
| ExperimentRunner.LastRowCountsUnsolved | calculateResultsStats.py:20-34 | the last line of a file that ends with a solved row reads its flag as "Tru" and counts as unsolved with score 0 |
| ExperimentRunner.LastLineIsBody | ExperimentRunner.py:261-277 | the last line of the file after a write is the row's cells joined by commas |

## Left out

- The planner is an oracle.
  - This covers `Runner`, `parse_domain`, `parse_problem`, `solve(search=False)`,
    `_search`, the search-model list, the solvers' novelty counters, `StateNovelty`,
    `ParameterSelector.check_satisfies_type` and `isinstance` on its classes.
  - They appear as the parameters `step`, `models`, `counters`, `numUniqueFacts`,
    `satisfies`, `isNoveltySolver` and `tracksMethodStates`, and as the model's flags
    for plan-model and tracker kind. Their own code is not part of this model.
  - `RunTest` requires that `isNoveltySolver` accept the partial-order novelty solver,
    and that `tracksMethodStates` accept the two no-reset method solvers. These are
    the `isinstance` facts the class hierarchy fixes.
- `controller.output_result_file` and the `pandaPIparser` subprocess are external
  programs. The verifier's standard output is the parameter `verifierOutput`, and the
  plan file it reads is not modelled.
- The clock is a parameter.
  - `time.time()` becomes an abstract elapsed-time reading for each loop test (`clock`).
  - The setup and solve durations are parameters.
  - `datetime.now()` is only printed, so it is left out.
  - `RunSearch`, `RunConfigured` and `RunTest` require that some step either reads a
    clock at or past the budget or returns a plan. Real time always reaches the
    budget; an abstract clock need not.
- Floating point is not modelled. Percentages and ratios are exact reals. Python's
  float `repr`, `float()` parsing and `math.log(t) / math.log(1800)` are the
  parameters `showReal`, `parseFloat` and `logRatio`, and NaN and infinity are not
  modelled.
- `print` output is left out; it has no effect on the files.
- The argparse entry point and the fixed batches of `run_test` calls are left out,
  because they only call the modelled functions. So are the working-directory and
  `sys.path` set-up at import time, because they only locate the planner library.
- File I/O is left out: the file system is a map from path to text plus a set of
  folders. Text-mode newline translation, encodings, permissions and the
  close/flush steps are not modelled.
- `str.upper` only maps the ASCII letters; other Unicode case mappings are left out,
  because results files are ASCII.
- ResultsStats.SummaryShape does not state the digits of the overview line's
  percentage, because that is a float printed by `showReal`.
