/**
 * Writing one experiment's results row to its CSV file: the twenty cells in column
 * order, the header a new file starts with, and the append-or-create behaviour over a
 * file system given as a map from paths to contents plus a set of directories.
 */
module ResultsWriter {
  import opened Common

  // ---------------------------------------------------------------------------
  // Cells and rows

  /** A value as `str.format` prints it into a cell. */
  datatype Cell = Text(s: string) | Whole(i: int) | Real(x: real) | Flag(b: bool) | Missing

  /**
   * The cell text. `showReal` is Python's `repr` of a float; "N/A" stands for a
   * value that was not measured.
   */
  function Render(c: Cell, showReal: real -> string): (t: string)
    ensures c.Missing? ==> t == "N/A"
    ensures c.Flag? ==> t == BoolToString(c.b)
    ensures (forall x :: ',' !in showReal(x)) && !c.Text? ==> ',' !in t
  {
    match c
    case Text(s) => s
    case Whole(i) => IntToString(i)
    case Real(x) => showReal(x)
    case Flag(b) => BoolToString(b)
    case Missing => "N/A"
  }

  function NatCell(m: Maybe<nat>): Cell
  {
    if m.Value? then Whole(m.v) else Missing
  }

  function RealCell(m: Maybe<real>): Cell
  {
    if m.Value? then Real(m.v) else Missing
  }

  function NumberCell(m: Maybe<Number>): Cell
  {
    if m.NA? then Missing
    else if m.v.Int? then Whole(m.v.i)
    else Real(m.v.x)
  }

  function FlagCell(m: Maybe<bool>): Cell
  {
    if m.Value? then Flag(m.v) else Missing
  }

  /** One results row, by column. */
  datatype Row = Row(
    problem: string,
    numberExpansions: nat,
    solveTime: real,
    setupTime: real,
    allFacts: nat,
    actualFacts: Maybe<nat>,
    percentageFacts: Maybe<real>,
    possiblePairs: nat,
    actualPairs: Maybe<nat>,
    percentagePairs: Maybe<real>,
    numNovelStates: Maybe<nat>,
    numNotNovelStates: Maybe<nat>,
    percentageNovelStates: Maybe<Number>,
    numUniqueFacts: Maybe<nat>,
    numNovelMethods: Maybe<nat>,
    numNotNovelMethods: Maybe<nat>,
    numNovelMethodNotNovelState: Maybe<nat>,
    numNovelMethodsNovelState: Maybe<nat>,
    solved: bool,
    verified: Maybe<bool>)

  /** The cells in the order they are written: `verified` comes before `solved`. */
  function Cells(row: Row): (cs: seq<Cell>)
    ensures |cs| == 20
    ensures cs[0] == Text(row.problem)
    ensures cs[18] == FlagCell(row.verified) && cs[19] == Flag(row.solved)
    ensures forall k :: 1 <= k < |cs| ==> !cs[k].Text?
  {
    [Text(row.problem), Whole(row.numberExpansions), Real(row.solveTime), Real(row.setupTime),
     Whole(row.allFacts), NatCell(row.actualFacts), RealCell(row.percentageFacts),
     Whole(row.possiblePairs), NatCell(row.actualPairs), RealCell(row.percentagePairs),
     NatCell(row.numNovelStates), NatCell(row.numNotNovelStates),
     NumberCell(row.percentageNovelStates), NatCell(row.numUniqueFacts),
     NatCell(row.numNovelMethods), NatCell(row.numNotNovelMethods),
     NatCell(row.numNovelMethodNotNovelState), NatCell(row.numNovelMethodsNovelState),
     FlagCell(row.verified), Flag(row.solved)]
  }

  function RenderAll(cs: seq<Cell>, showReal: real -> string): (ts: seq<string>)
    ensures |ts| == |cs|
    ensures forall k :: 0 <= k < |cs| ==> ts[k] == Render(cs[k], showReal)
  {
    if |cs| == 0 then [] else [Render(cs[0], showReal)] + RenderAll(cs[1..], showReal)
  }

  /** What is written for a row: a line break, then the cells separated by commas. */
  function RowLine(row: Row, showReal: real -> string): string
  {
    "\n" + Join(RenderAll(Cells(row), showReal), ',')
  }

  /** The column names of a results file: the run, the fact and pair coverage, novelty, the outcome. */
  const HEADER_NAMES: seq<string> := RUN_NAMES + COVERAGE_NAMES + NOVELTY_NAMES + OUTCOME_NAMES

  const RUN_NAMES: seq<string> := ["Problem", "number_expansions", "solve_time", "setup_time", "all_facts"]

  const COVERAGE_NAMES: seq<string> :=
    ["actual_facts", "percentage_facts", "possible_pairs", "actual_pairs", "percentage_pairs"]

  const NOVELTY_NAMES: seq<string> :=
    ["num_novel_states", "num_not_novel_states", "percentage_novel_states", "num_unique_facts",
     "num_novel_methods"]

  const OUTCOME_NAMES: seq<string> :=
    ["num_not_novel_methods", "num_novel_method_not_novel_state", "num_novel_methods_novel_state",
     "Verified", "Solved"]

  /** No name holds `c`. */
  predicate NoneHolds(names: seq<string>, c: char)
  {
    forall k :: 0 <= k < |names| ==> c !in names[k]
  }

  /** No column name holds a comma or a line break. */
  lemma HeaderNamesPlain(c: char)
    requires c == ',' || c == '\n'
    ensures NoneHolds(HEADER_NAMES, c)
    ensures |HEADER_NAMES| == 20
  {
    RunNamesPlain(c);
    CoverageNamesPlain(c);
    NoveltyNamesPlain(c);
    OutcomeNamesPlain(c);
    NoneHoldsAppend(RUN_NAMES, COVERAGE_NAMES, c);
    NoneHoldsAppend(RUN_NAMES + COVERAGE_NAMES, NOVELTY_NAMES, c);
    NoneHoldsAppend(RUN_NAMES + COVERAGE_NAMES + NOVELTY_NAMES, OUTCOME_NAMES, c);
  }

  lemma RunNamesPlain(c: char)
    requires c == ',' || c == '\n'
    ensures NoneHolds(RUN_NAMES, c)
  {
  }

  lemma CoverageNamesPlain(c: char)
    requires c == ',' || c == '\n'
    ensures NoneHolds(COVERAGE_NAMES, c)
  {
  }

  lemma NoveltyNamesPlain(c: char)
    requires c == ',' || c == '\n'
    ensures NoneHolds(NOVELTY_NAMES, c)
  {
  }

  lemma OutcomeNamesPlain(c: char)
    requires c == ',' || c == '\n'
    ensures NoneHolds(OUTCOME_NAMES, c)
  {
  }

  lemma NoneHoldsAppend(a: seq<string>, b: seq<string>, c: char)
    requires NoneHolds(a, c) && NoneHolds(b, c)
    ensures NoneHolds(a + b, c)
  {
    assert forall k :: 0 <= k < |a| ==> (a + b)[k] == a[k];
    assert forall k :: |a| <= k < |a + b| ==> (a + b)[k] == b[k - |a|];
  }

  /** The first line of a new results file. */
  function Header(): string
  {
    Join(HEADER_NAMES, ',')
  }

  /** The header splits back into its twenty names, ending in Verified and Solved. */
  lemma HeaderColumns()
    ensures Split(Header(), ',') == HEADER_NAMES
    ensures |HEADER_NAMES| == 20
    ensures HEADER_NAMES[18] == "Verified" && HEADER_NAMES[19] == "Solved"
  {
    HeaderNamesPlain(',');
    SplitJoin(HEADER_NAMES, ',');
  }

  /**
   * When the problem name and the printed floats hold no comma, a row splits back
   * into one field per header column, the last two being `str(verified)` and
   * `str(solved)`.
   */
  lemma RowColumns(row: Row, showReal: real -> string)
    requires ',' !in row.problem
    requires forall x :: ',' !in showReal(x)
    ensures var fields := Split(RowLine(row, showReal)[1..], ',');
      && |fields| == |HEADER_NAMES|
      && fields[0] == row.problem
      && fields[18] == (if row.verified.Value? then BoolToString(row.verified.v) else "N/A")
      && fields[19] == BoolToString(row.solved)
  {
    var ts := RenderAll(Cells(row), showReal);
    assert RowLine(row, showReal)[1..] == Join(ts, ',');
    SplitJoin(ts, ',');
    HeaderColumns();
  }

  // ---------------------------------------------------------------------------
  // The file system

  /** `os.path.exists`. */
  predicate Exists(files: map<string, string>, dirs: set<string>, p: string)
  {
    p in files || p in dirs
  }

  /** `p.split('/')[0]`: the text before the first '/'. */
  function TopFolder(p: string): (t: string)
    ensures '/' in p ==> t == p[..Find(p, '/')]
    ensures '/' !in t
  {
    Split(p, '/')[0]
  }

  /** The directory a path's file lives in, when the path has a '/'. */
  function Parent(p: string): string
  {
    var k := RFind(p, '/');
    if k < 0 then "" else p[..k]
  }

  /** The last component of a path. */
  function BaseName(p: string): string
  {
    p[RFind(p, '/') + 1..]
  }

  /** `open(p, 'w')` succeeds: the name is not empty and its directory exists. */
  predicate CanCreate(dirs: set<string>, p: string)
  {
    BaseName(p) != "" && ('/' in p ==> Parent(p) in dirs)
  }

  /** A new file in a subdirectory whose top folder is missing triggers `os.mkdir`. */
  predicate NeedsFolder(files: map<string, string>, dirs: set<string>, p: string)
  {
    !Exists(files, dirs, p) && '/' in p && !Exists(files, dirs, TopFolder(p))
  }

  /** A local file system: file contents by path and the set of directories. */
  class FileSystem {
    var files: map<string, string>
    var dirs: set<string>

    /** No path is both a file and a directory. */
    ghost predicate Valid()
      reads this
    {
      files.Keys !! dirs
    }

    constructor(files0: map<string, string>, dirs0: set<string>)
      requires files0.Keys !! dirs0
      ensures Valid()
      ensures files == files0 && dirs == dirs0
    {
      files := files0;
      dirs := dirs0;
    }
  }

  /**
   * What `write_to_file` leaves behind when it writes `line` to `fileName`; `ok` says
   * whether it succeeded. An existing file gets the line appended. Opening a
   * directory fails and changes nothing. A new path with a '/' whose top folder is
   * missing first gets that folder (a folder named "" cannot be made, which fails);
   * then the file is created, with the header before the line, when its name is not
   * empty and its directory exists, and otherwise the open fails and the folder made
   * before it stays.
   */
  ghost predicate Appended(files0: map<string, string>, dirs0: set<string>, fileName: string, line: string,
                           ok: bool, files: map<string, string>, dirs: set<string>)
  {
    && (fileName in files0 ==>
          ok && files == files0[fileName := files0[fileName] + line] && dirs == dirs0)
    && (fileName in dirs0 ==> !ok && files == files0 && dirs == dirs0)
    && (!Exists(files0, dirs0, fileName) ==>
          && dirs == (if NeedsFolder(files0, dirs0, fileName) && TopFolder(fileName) != ""
                      then dirs0 + {TopFolder(fileName)} else dirs0)
          && (ok <==> !(NeedsFolder(files0, dirs0, fileName) && TopFolder(fileName) == "")
                      && CanCreate(dirs, fileName))
          && files == (if ok then files0[fileName := Header() + line] else files0))
  }

  /**
   * `write_to_file`: appends the row to an existing file, or creates the file (and,
   * for a path with a '/', its missing top folder) and writes the header before the
   * row, as `Appended` describes; every failure is an OSError.
   */
  method WriteToFile(fs: FileSystem, row: Row, fileName: string, showReal: real -> string)
    returns (r: Result<()>)
    requires fs.Valid()
    modifies fs
    ensures fs.Valid()
    ensures r.Err? ==> r.error.OSError?
    ensures Appended(old(fs.files), old(fs.dirs), fileName, RowLine(row, showReal), r.Ok?, fs.files, fs.dirs)
  {
    var line := RowLine(row, showReal);
    if fileName in fs.files {
      fs.files := fs.files[fileName := fs.files[fileName] + line];
      return Ok(());
    }
    if fileName in fs.dirs {
      return Err(OSError(fileName));
    }
    if '/' in fileName {
      var target := TopFolder(fileName);
      if !Exists(fs.files, fs.dirs, target) {
        if target == "" {
          return Err(OSError(target));
        }
        fs.dirs := fs.dirs + {target};
      }
    }
    if !CanCreate(fs.dirs, fileName) {
      return Err(OSError(fileName));
    }
    fs.files := fs.files[fileName := Header() + line];
    r := Ok(());
  }

  /**
   * A new results file is the header, which holds no line break, then a line break,
   * then the row's cells.
   */
  lemma NewFileLayout(row: Row, showReal: real -> string)
    ensures '\n' !in Header()
    ensures var content := Header() + RowLine(row, showReal);
      && content[..|Header()|] == Header()
      && content[|Header()|] == '\n'
      && content[|Header()| + 1..] == Join(RenderAll(Cells(row), showReal), ',')
  {
    HeaderHasNoLineBreak();
    var body := Join(RenderAll(Cells(row), showReal), ',');
    assert RowLine(row, showReal) == "\n" + body;
    FirstLine(Header(), body);
  }

  lemma FirstLine(h: string, body: string)
    ensures var content := h + ("\n" + body);
      && content[..|h|] == h
      && content[|h|] == '\n'
      && content[|h| + 1..] == body
  {
  }

  lemma HeaderHasNoLineBreak()
    ensures '\n' !in Header()
  {
    HeaderNamesPlain('\n');
    JoinNoChar(HEADER_NAMES, ',', '\n');
  }

  /** Joining pieces free of `c` with a separator other than `c` gives a string free of `c`. */
  lemma {:induction false} JoinNoChar(parts: seq<string>, sep: char, c: char)
    requires c != sep
    requires forall k :: 0 <= k < |parts| ==> c !in parts[k]
    ensures c !in Join(parts, sep)
  {
    if |parts| > 1 {
      JoinNoChar(parts[1..], sep, c);
    }
  }
}
