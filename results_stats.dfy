/**
 * The results summariser: reads a results CSV, scores every problem row the way the
 * International Planning Competition does, groups the scores by domain in the order
 * the domains first appear, and writes a summary block in front of the unchanged
 * original content.
 */
module ResultsStats {
  import opened Common
  import opened ResultsWriter

  // ---------------------------------------------------------------------------
  // Reading lines

  /**
   * The lines `for line in file` yields: the text cut after every line break, so each
   * line keeps its '\n' and the last may lack one.
   */
  function Lines(s: string): seq<string>
    decreases |s|
  {
    if |s| == 0 then [] else Push(s[0], Lines(s[1..]))
  }

  /**
   * The lines of `[c] + rest` from the lines of `rest`: a line break is a line on its
   * own; any other character starts the first line of the rest.
   */
  function Push(c: char, ls: seq<string>): seq<string>
  {
    if c == '\n' || |ls| == 0 then [[c]] + ls else [[c] + ls[0]] + ls[1..]
  }

  function Concat(ls: seq<string>): string
  {
    if |ls| == 0 then "" else ls[0] + Concat(ls[1..])
  }

  /** The lines put back together are the file's text. */
  lemma {:induction false} LinesConcat(s: string)
    ensures Concat(Lines(s)) == s
    decreases |s|
  {
    if |s| > 0 {
      LinesConcat(s[1..]);
      PushConcat(s[0], Lines(s[1..]));
      assert s == [s[0]] + s[1..];
    }
  }

  lemma PushConcat(c: char, ls: seq<string>)
    ensures Concat(Push(c, ls)) == [c] + Concat(ls)
  {
    if c == '\n' || |ls| == 0 {
      assert ([[c]] + ls)[1..] == ls;
    } else {
      assert ([[c] + ls[0]] + ls[1..])[1..] == ls[1..];
    }
  }

  /** Every line is non-empty, and a line break can only be its last character. */
  lemma {:induction false} LinesShape(s: string, k: nat)
    requires k < |Lines(s)|
    ensures var line := Lines(s)[k]; |line| > 0 && '\n' !in line[..|line| - 1]
    decreases |s|
  {
    var c, ls := s[0], Lines(s[1..]);
    if c == '\n' || |ls| == 0 {
      if k > 0 {
        LinesShape(s[1..], k - 1);
      }
    } else if k == 0 {
      LinesShape(s[1..], 0);
      var line := [c] + ls[0];
      assert line[..|line| - 1] == [c] + ls[0][..|ls[0]| - 1];
    } else {
      LinesShape(s[1..], k);
    }
  }

  /** Every line but the last ends with its line break. */
  lemma {:induction false} LinesEnd(s: string, k: nat)
    requires k + 1 < |Lines(s)|
    ensures var line := Lines(s)[k]; |line| > 0 && line[|line| - 1] == '\n'
    decreases |s|
  {
    var c, ls := s[0], Lines(s[1..]);
    if c == '\n' || |ls| == 0 {
      if k > 0 {
        LinesEnd(s[1..], k - 1);
      }
    } else {
      LinesEnd(s[1..], k);
    }
  }

  /** Only empty text has no lines. */
  lemma LinesOfEmpty(s: string)
    ensures |Lines(s)| == 0 <==> |s| == 0
  {
  }

  /** Text that ends with a line break (or is empty): its lines come before those of what follows. */
  lemma {:induction false} LinesAppend(s: string, t: string)
    requires |s| == 0 || s[|s| - 1] == '\n'
    ensures Lines(s + t) == Lines(s) + Lines(t)
    decreases |s|
  {
    if |s| == 0 {
      assert s + t == t;
    } else {
      var rest := s[1..];
      assert (s + t)[1..] == rest + t;
      assert Lines(s + t) == Push(s[0], Lines(rest + t));
      assert Lines(s) == Push(s[0], Lines(rest));
      LinesAppend(rest, t);
      LinesOfEmpty(rest);
      PushAppend(s[0], Lines(rest), Lines(t));
    }
  }

  /** Pushing a character in front keeps the lines appended behind. */
  lemma PushAppend(c: char, ls: seq<string>, ms: seq<string>)
    requires c == '\n' || |ls| > 0
    ensures Push(c, ls + ms) == Push(c, ls) + ms
  {
    if c != '\n' {
      assert (ls + ms)[1..] == ls[1..] + ms;
    }
  }

  /**
   * Text that ends with a line break (or is empty) followed by a last piece without
   * one: the piece is the last line.
   */
  lemma LinesAppendLast(s: string, last: string)
    requires |s| == 0 || s[|s| - 1] == '\n'
    requires |last| > 0 && '\n' !in last
    ensures Lines(s + last) == Lines(s) + [last]
  {
    LinesAppend(s, last);
    LinesOfPlain(last);
  }

  /** Text without a line break is one line. */
  lemma {:induction false} LinesOfPlain(t: string)
    requires |t| > 0 && '\n' !in t
    ensures Lines(t) == [t]
    decreases |t|
  {
    if |t| > 1 {
      LinesOfPlain(t[1..]);
      assert [t[0]] + t[1..] == t;
    } else {
      assert Lines(t[1..]) == [];
      assert [t[0]] == t;
    }
  }

  /** Text without a line break, then a line break: one line. */
  lemma {:induction false} LinesOfLine(x: string)
    requires '\n' !in x
    ensures Lines(x + "\n") == [x + "\n"]
    decreases |x|
  {
    if |x| == 0 {
      assert x + "\n" == "\n";
      assert Lines("\n"[1..]) == [];
    } else {
      LinesOfLine(x[1..]);
      assert (x + "\n")[1..] == x[1..] + "\n";
      assert [x[0]] + (x[1..] + "\n") == x + "\n";
    }
  }

  /** Every line after the first: `line_num > 1`. */
  function DataLines(ls: seq<string>): seq<string>
  {
    if |ls| == 0 then [] else ls[1..]
  }

  // ---------------------------------------------------------------------------
  // One row

  /** The solved cell: from after the last ',' up to the last '\\', which with no '\\' drops the last character. */
  function SolvedField(line: string): string
  {
    PySlice(line, RFind(line, ',') + 1, RFind(line, '\\'))
  }

  /** The domain: the text before the first '/' (with no '/', all but the last character). */
  function DomainOf(line: string): string
  {
    PySlice(line, 0, Find(line, '/'))
  }

  /** A row whose flag is followed by a line break reads that flag. */
  lemma FlagBeforeLineBreak(pre: string, flag: string)
    requires ',' !in flag && '\n' !in flag
    requires '\\' !in pre && '\\' !in flag
    ensures SolvedField(pre + "," + flag + "\n") == flag
  {
    var line := pre + "," + flag + "\n";
    LastComma(pre, flag + "\n");
    assert line == pre + "," + (flag + "\n");
    assert '\\' !in line;
    assert line[|pre| + 1..|line| - 1] == flag;
  }

  /** The last row of a file, which has no line break, loses its flag's last character. */
  lemma FlagAtEndOfFile(pre: string, flag: string)
    requires |flag| > 0 && ',' !in flag
    requires '\\' !in pre && '\\' !in flag
    ensures SolvedField(pre + "," + flag) == flag[..|flag| - 1]
  {
    var line := pre + "," + flag;
    LastComma(pre, flag);
    assert '\\' !in line;
    assert line[|pre| + 1..|line| - 1] == flag[..|flag| - 1];
  }

  /** So a solved last row reads "Tru" and counts as unsolved. */
  lemma SolvedLastRowReadsTru(pre: string, parseFloat: string -> Option<real>, logRatio: real -> real)
    requires '\\' !in pre
    ensures SolvedField(pre + ",True") == "Tru"
    ensures Upper(SolvedField(pre + ",True")) != "TRUE"
    ensures LineResult(pre + ",True", parseFloat, logRatio) == Ok((false, Int(0)))
  {
    FlagAtEndOfFile(pre, "True");
    assert pre + ",True" == pre + "," + "True";
  }

  lemma LastComma(pre: string, rest: string)
    requires ',' !in rest
    ensures RFind(pre + "," + rest, ',') == |pre|
  {
    var line := pre + "," + rest;
    var r := RFind(line, ',');
    assert line[|pre|] == ',';
    NotInSlice(line, r + 1, |pre|, ',');
    assert line[|pre| + 1..] == rest;
    NotInSlice(line, |pre| + 1, r, ',');
  }

  /** A character missing from `s[i..]` is at no index from `i` on. */
  lemma NotInSlice(s: string, i: int, j: int, c: char)
    requires 0 <= i <= |s| && c !in s[i..]
    ensures i <= j < |s| ==> s[j] != c
  {
    if i <= j < |s| {
      assert s[i..][j - i] == s[j];
    }
  }

  /** A row that starts with a "Domain/file" problem name is filed under Domain. */
  lemma DomainBeforeSlash(d: string, rest: string)
    requires '/' !in d
    ensures DomainOf(d + "/" + rest) == d
  {
    var line := d + "/" + rest;
    assert line[|d|] == '/';
    assert line[..|d|] == d;
    var f := Find(line, '/');
    assert forall j :: 0 <= j < |d| ==> line[j] == d[j];
    assert forall j :: 0 <= j < f ==> line[j] == line[..f][j];
  }

  /**
   * `float(line[commas[1] + 1:commas[2]])`: the solve-time column, which is the third
   * comma-separated field; a row with fewer than three commas has no such slice.
   */
  function SolveTime(line: string, parseFloat: string -> Option<real>): (r: Result<real>)
    ensures r.Err? && r.error == IndexError <==> Count(line, ',') < 3
    ensures r.Err? ==> r.error == IndexError || r.error.ValueError?
    ensures Count(line, ',') >= 3 ==>
      && |Split(line, ',')| >= 4
      && ((var f := Split(line, ',')[2];
          (r.Ok? <==> parseFloat(f).Some?) && (r.Ok? ==> r.value == parseFloat(f).value)))
  {
    var commas := Positions(line, ',');
    if |commas| < 3 then Err(IndexError)
    else
      ThirdPiece(line, ',', commas);
      var field := PySlice(line, commas[1] + 1, commas[2]);
      assert field == Split(line, ',')[2];
      match parseFloat(field)
      case None => Err(ValueError("could not convert string to float: " + field))
      case Some(t) => Ok(t)
  }

  /**
   * The competition score of a solved problem: 1 under a second, otherwise
   * `min(1, 1 - log t / log 1800)`; `logRatio(t)` stands for `log t / log 1800`.
   * Python's `min` keeps the int 1 unless the float is strictly smaller.
   */
  function Score(t: real, logRatio: real -> real): (s: Number)
    ensures s.Val() <= 1.0
    ensures t < 1.0 ==> s == Int(1)
    ensures t >= 1.0 ==> s.Val() == (if 1.0 - logRatio(t) < 1.0 then 1.0 - logRatio(t) else 1.0)
  {
    if t < 1.0 then Int(1)
    else
      var x := 1.0 - logRatio(t);
      if x < 1.0 then Float(x) else Int(1)
  }

  /** There is no lower clamp: a solve slower than 1800 seconds scores below zero. */
  lemma SlowSolveScoresNegative(t: real, logRatio: real -> real)
    requires t >= 1.0 && logRatio(t) > 1.0
    ensures Score(t, logRatio).Val() < 0.0
  {
  }

  /** Whether a row counts as solved, and its score. */
  function LineResult(line: string, parseFloat: string -> Option<real>, logRatio: real -> real)
    : (r: Result<(bool, Number)>)
    ensures r.Ok? ==> r.value.1.Val() <= 1.0
  {
    if Upper(SolvedField(line)) != "TRUE" then Ok((false, Int(0)))
    else
      match SolveTime(line, parseFloat)
      case Err(e) => Err(e)
      case Ok(t) => Ok((true, Score(t, logRatio)))
  }

  /**
   * A row is solved exactly when its flag reads TRUE in any case; an unsolved row
   * scores 0, and a solved row fails when its solve time cannot be read.
   */
  lemma LineResultBranches(line: string, parseFloat: string -> Option<real>, logRatio: real -> real)
    ensures var r := LineResult(line, parseFloat, logRatio);
      && (r.Ok? ==> (r.value.0 <==> Upper(SolvedField(line)) == "TRUE"))
      && (Upper(SolvedField(line)) != "TRUE" ==> r == Ok((false, Int(0))))
      && (Upper(SolvedField(line)) == "TRUE" ==>
            (r.Err? <==> SolveTime(line, parseFloat).Err?)
            && (r.Ok? ==> r.value.1 == Score(SolveTime(line, parseFloat).value, logRatio)))
  {
  }

  // ---------------------------------------------------------------------------
  // The tally over all rows

  /** The loop's state: solved and total counts, domains in first-seen order, scores by domain. */
  datatype Tally = Tally(solved: nat, total: nat, order: seq<string>, scores: map<string, seq<Number>>)

  const EMPTY_TALLY := Tally(0, 0, [], map[])

  /** Files a row under its domain, creating the domain's empty list the first time. */
  function Record(t: Tally, domain: string, solved: bool, score: Number): Tally
  {
    var order := if domain in t.scores then t.order else t.order + [domain];
    var scores := if domain in t.scores then t.scores else t.scores[domain := []];
    Tally(t.solved + (if solved then 1 else 0), t.total + 1, order, scores[domain := scores[domain] + [score]])
  }

  /** What one row contributes: its domain, whether it was solved, and its score. */
  datatype Outcome = Outcome(domain: string, solved: bool, score: Number)

  /** Reads the rows in order; the first row that fails stops the reading with its error. */
  function ReadRows(lines: seq<string>, parseFloat: string -> Option<real>, logRatio: real -> real)
    : (r: Result<seq<Outcome>>)
    ensures r.Ok? ==> |r.value| == |lines|
  {
    if |lines| == 0 then Ok([])
    else
      match ReadRows(lines[..|lines| - 1], parseFloat, logRatio)
      case Err(e) => Err(e)
      case Ok(rows) =>
        var line := lines[|lines| - 1];
        match LineResult(line, parseFloat, logRatio)
        case Err(e) => Err(e)
        case Ok(p) => Ok(rows + [Outcome(DomainOf(line), p.0, p.1)])
  }

  /** Each row read is the outcome of the line at the same place. */
  lemma {:induction false} ReadRowsByLine(lines: seq<string>, parseFloat: string -> Option<real>,
                                          logRatio: real -> real, k: nat)
    requires ReadRows(lines, parseFloat, logRatio).Ok? && k < |lines|
    ensures LineResult(lines[k], parseFloat, logRatio).Ok?
    ensures var p := LineResult(lines[k], parseFloat, logRatio).value;
      ReadRows(lines, parseFloat, logRatio).value[k] == Outcome(DomainOf(lines[k]), p.0, p.1)
  {
    if k < |lines| - 1 {
      ReadRowsByLine(lines[..|lines| - 1], parseFloat, logRatio, k);
    }
  }

  /** Reading one more line: the step the row loop takes. */
  lemma ReadRowsSnoc(lines: seq<string>, line: string, parseFloat: string -> Option<real>,
                     logRatio: real -> real)
    ensures ReadRows(lines + [line], parseFloat, logRatio)
      == match ReadRows(lines, parseFloat, logRatio)
         case Err(e) => Err(e)
         case Ok(rows) =>
           match LineResult(line, parseFloat, logRatio)
           case Err(e) => Err(e)
           case Ok(p) => Ok(rows + [Outcome(DomainOf(line), p.0, p.1)])
  {
    assert (lines + [line])[..|lines|] == lines;
  }

  lemma TalliedSnoc(rows: seq<Outcome>, o: Outcome)
    ensures Tallied(rows + [o]) == Record(Tallied(rows), o.domain, o.solved, o.score)
  {
    assert (rows + [o])[..|rows|] == rows;
  }

  /** The tally of the outcomes, in order. */
  function Tallied(rows: seq<Outcome>): Tally
  {
    if |rows| == 0 then EMPTY_TALLY
    else
      var o := rows[|rows| - 1];
      Record(Tallied(rows[..|rows| - 1]), o.domain, o.solved, o.score)
  }

  /** The domain of each outcome. */
  function Domains(rows: seq<Outcome>): (ds: seq<string>)
    ensures |ds| == |rows|
  {
    if |rows| == 0 then [] else Domains(rows[..|rows| - 1]) + [rows[|rows| - 1].domain]
  }

  /** The score of each outcome. */
  function Scores(rows: seq<Outcome>): (ss: seq<Number>)
    ensures |ss| == |rows|
  {
    if |rows| == 0 then [] else Scores(rows[..|rows| - 1]) + [rows[|rows| - 1].score]
  }

  /** How many outcomes are solved. */
  function SolvedCount(rows: seq<Outcome>): nat
  {
    if |rows| == 0 then 0
    else SolvedCount(rows[..|rows| - 1]) + (if rows[|rows| - 1].solved then 1 else 0)
  }

  predicate Distinct(xs: seq<string>)
  {
    forall i, j :: 0 <= i < j < |xs| ==> xs[i] != xs[j]
  }

  /** The sum of the values, in exact arithmetic. */
  function SumVals(xs: seq<Number>): real
  {
    if |xs| == 0 then 0.0 else SumVals(xs[..|xs| - 1]) + xs[|xs| - 1].Val()
  }

  /** `sum(xs)`, which starts from the int 0 and stays an int while every term is one. */
  function SumNumbers(xs: seq<Number>): (r: Number)
    ensures r.Val() == SumVals(xs)
    ensures r.Int? <==> forall k :: 0 <= k < |xs| ==> xs[k].Int?
  {
    if |xs| == 0 then Int(0) else Add(SumNumbers(xs[..|xs| - 1]), xs[|xs| - 1])
  }

  predicate Covers(order: seq<string>, scores: map<string, seq<Number>>)
  {
    forall k :: 0 <= k < |order| ==> order[k] in scores
  }

  /** How many scores the listed domains hold together. */
  function LenOver(order: seq<string>, scores: map<string, seq<Number>>): nat
    requires Covers(order, scores)
  {
    if |order| == 0 then 0
    else LenOver(order[..|order| - 1], scores) + |scores[order[|order| - 1]]|
  }

  /** The sum of the listed domains' sums. */
  function ValOver(order: seq<string>, scores: map<string, seq<Number>>): real
    requires Covers(order, scores)
  {
    if |order| == 0 then 0.0
    else ValOver(order[..|order| - 1], scores) + SumVals(scores[order[|order| - 1]])
  }

  /** The tally's shape: the domain list and the score map agree and the scores number the rows. */
  ghost predicate WellFormed(t: Tally)
  {
    && Distinct(t.order)
    && (forall d :: d in t.scores <==> d in t.order)
    && LenOver(t.order, t.scores) == t.total
    && t.solved <= t.total
  }

  lemma {:induction false} OverFrame(order: seq<string>, a: map<string, seq<Number>>, b: map<string, seq<Number>>)
    requires Covers(order, a) && Covers(order, b)
    requires forall k :: 0 <= k < |order| ==> a[order[k]] == b[order[k]]
    ensures LenOver(order, a) == LenOver(order, b)
    ensures ValOver(order, a) == ValOver(order, b)
  {
    if |order| > 0 {
      OverFrame(order[..|order| - 1], a, b);
    }
  }

  /** Adding a score to a listed domain adds one score and its value. */
  lemma {:induction false} OverAddScore(order: seq<string>, scores: map<string, seq<Number>>, d: string, s: Number)
    requires Covers(order, scores) && Distinct(order) && d in order && d in scores
    ensures Covers(order, scores[d := scores[d] + [s]])
    ensures LenOver(order, scores[d := scores[d] + [s]]) == LenOver(order, scores) + 1
    ensures ValOver(order, scores[d := scores[d] + [s]]) == ValOver(order, scores) + s.Val()
  {
    var scores' := scores[d := scores[d] + [s]];
    var front := order[..|order| - 1];
    assert SumVals(scores[d] + [s]) == SumVals(scores[d]) + s.Val() by {
      assert (scores[d] + [s])[..|scores[d]|] == scores[d];
    }
    if order[|order| - 1] == d {
      assert d !in front;
      OverFrame(front, scores, scores');
    } else {
      assert d in front;
      OverAddScore(front, scores, d, s);
    }
  }

  /** Adding a new domain with one score does the same. */
  lemma OverNewDomain(order: seq<string>, scores: map<string, seq<Number>>, d: string, s: Number)
    requires Covers(order, scores) && d !in order
    ensures Covers(order + [d], scores[d := [s]])
    ensures LenOver(order + [d], scores[d := [s]]) == LenOver(order, scores) + 1
    ensures ValOver(order + [d], scores[d := [s]]) == ValOver(order, scores) + s.Val()
  {
    assert (order + [d])[..|order|] == order;
    OverFrame(order, scores, scores[d := [s]]);
    assert SumVals([s]) == SumVals([]) + s.Val();
  }

  lemma DistinctAppend(xs: seq<string>, x: string)
    requires Distinct(xs) && x !in xs
    ensures Distinct(xs + [x])
  {
    assert forall i :: 0 <= i < |xs| ==> (xs + [x])[i] == xs[i];
  }

  /** Recording one row keeps the tally well formed and counts it. */
  lemma RecordPreserves(t: Tally, domain: string, solved: bool, score: Number)
    requires WellFormed(t)
    ensures WellFormed(Record(t, domain, solved, score))
    ensures Record(t, domain, solved, score).total == t.total + 1
    ensures ValOver(Record(t, domain, solved, score).order, Record(t, domain, solved, score).scores)
      == ValOver(t.order, t.scores) + score.Val()
  {
    if domain in t.scores {
      RecordListed(t, domain, solved, score);
    } else {
      RecordNew(t, domain, solved, score);
    }
  }

  /** `RecordPreserves` for a domain already listed. */
  lemma RecordListed(t: Tally, domain: string, solved: bool, score: Number)
    requires WellFormed(t) && domain in t.scores
    ensures WellFormed(Record(t, domain, solved, score))
    ensures ValOver(Record(t, domain, solved, score).order, Record(t, domain, solved, score).scores)
      == ValOver(t.order, t.scores) + score.Val()
  {
    var t' := Record(t, domain, solved, score);
    assert domain in t.order;
    assert t'.order == t.order;
    assert t'.scores == t.scores[domain := t.scores[domain] + [score]];
    OverAddScore(t.order, t.scores, domain, score);
  }

  /** `RecordPreserves` for a domain seen for the first time. */
  lemma RecordNew(t: Tally, domain: string, solved: bool, score: Number)
    requires WellFormed(t) && domain !in t.scores
    ensures WellFormed(Record(t, domain, solved, score))
    ensures ValOver(Record(t, domain, solved, score).order, Record(t, domain, solved, score).scores)
      == ValOver(t.order, t.scores) + score.Val()
  {
    var t' := Record(t, domain, solved, score);
    assert domain !in t.order;
    assert t'.order == t.order + [domain];
    assert t'.scores == t.scores[domain := [score]] by {
      assert [] + [score] == [score];
    }
    OverNewDomain(t.order, t.scores, domain, score);
    DistinctAppend(t.order, domain);
  }

  /**
   * A finished tally is well formed: each row is counted once (`total` is the number
   * of rows, the domain lists' lengths add up to it), `solved` counts the solved rows,
   * and the domain sums add up to the sum of all row scores.
   */
  lemma TallyInvariant(rows: seq<Outcome>)
    ensures WellFormed(Tallied(rows))
    ensures Tallied(rows).total == |rows|
    ensures Tallied(rows).solved == SolvedCount(rows)
    ensures ValOver(Tallied(rows).order, Tallied(rows).scores) == SumVals(Scores(rows))
  {
    TallyShape(rows);
    TallySum(rows);
  }

  lemma {:induction false} TallyShape(rows: seq<Outcome>)
    ensures WellFormed(Tallied(rows))
    ensures Tallied(rows).total == |rows|
    ensures Tallied(rows).solved == SolvedCount(rows)
  {
    if |rows| > 0 {
      var o := rows[|rows| - 1];
      var front := rows[..|rows| - 1];
      TallyShape(front);
      RecordPreserves(Tallied(front), o.domain, o.solved, o.score);
    }
  }

  lemma {:induction false} TallySum(rows: seq<Outcome>)
    ensures Covers(Tallied(rows).order, Tallied(rows).scores)
    ensures ValOver(Tallied(rows).order, Tallied(rows).scores) == SumVals(Scores(rows))
  {
    TallyShape(rows);
    if |rows| > 0 {
      var o := rows[|rows| - 1];
      var front := rows[..|rows| - 1];
      TallySum(front);
      TallySumStep(rows);
      ScoresSumStep(rows);
    }
  }

  /** The last outcome is recorded on top of the tally of the ones before it. */
  lemma TalliedLast(rows: seq<Outcome>)
    requires |rows| > 0
    ensures var o := rows[|rows| - 1]; var front := rows[..|rows| - 1];
      && Tallied(rows) == Record(Tallied(front), o.domain, o.solved, o.score)
      && Scores(rows) == Scores(front) + [o.score]
  {
  }

  /** Recording the last outcome adds its score to the domain sums. */
  lemma TallySumStep(rows: seq<Outcome>)
    requires |rows| > 0
    ensures var front := rows[..|rows| - 1];
      && Covers(Tallied(front).order, Tallied(front).scores)
      && Covers(Tallied(rows).order, Tallied(rows).scores)
      && ValOver(Tallied(rows).order, Tallied(rows).scores)
         == ValOver(Tallied(front).order, Tallied(front).scores) + rows[|rows| - 1].score.Val()
  {
    var o := rows[|rows| - 1];
    var front := rows[..|rows| - 1];
    TallyShape(front);
    TalliedLast(rows);
    RecordPreserves(Tallied(front), o.domain, o.solved, o.score);
  }

  /** The sum of all scores grows by the last one. */
  lemma ScoresSumStep(rows: seq<Outcome>)
    requires |rows| > 0
    ensures SumVals(Scores(rows)) == SumVals(Scores(rows[..|rows| - 1])) + rows[|rows| - 1].score.Val()
  {
    TalliedLast(rows);
    SumValsSnoc(Scores(rows[..|rows| - 1]), rows[|rows| - 1].score);
  }

  lemma SumValsSnoc(xs: seq<Number>, x: Number)
    ensures SumVals(xs + [x]) == SumVals(xs) + x.Val()
  {
    assert (xs + [x])[..|xs|] == xs;
  }

  /** The first index of `x` in `xs`. */
  function FirstIndex(xs: seq<string>, x: string): (i: nat)
    requires x in xs
    ensures i < |xs| && xs[i] == x
    ensures forall j :: 0 <= j < i ==> xs[j] != x
  {
    if xs[0] == x then 0 else FirstIndex(xs[1..], x) + 1
  }

  lemma FirstIndexAppend(xs: seq<string>, y: string, x: string)
    requires x in xs
    ensures FirstIndex(xs + [y], x) == FirstIndex(xs, x)
  {
    var i := FirstIndex(xs, x);
    var j := FirstIndex(xs + [y], x);
    assert (xs + [y])[i] == x;
    assert j <= i;
    assert xs[j] == x;
  }

  lemma FirstIndexNew(xs: seq<string>, x: string)
    requires x !in xs
    ensures FirstIndex(xs + [x], x) == |xs|
  {
    var j := FirstIndex(xs + [x], x);
    assert j >= |xs| by {
      assert forall k :: 0 <= k < |xs| ==> (xs + [x])[k] == xs[k];
    }
  }

  /** Filing the last row lists its domain at the end unless it is listed already. */
  lemma TalliedOrderStep(rows: seq<Outcome>)
    requires |rows| > 0
    ensures var t0 := Tallied(rows[..|rows| - 1]);
      var d := rows[|rows| - 1].domain;
      Tallied(rows).order == if d in t0.order then t0.order else t0.order + [d]
  {
    TallyInvariant(rows[..|rows| - 1]);
  }

  /** Every listed domain has a score list. */
  lemma TalliedCovers(rows: seq<Outcome>)
    ensures Covers(Tallied(rows).order, Tallied(rows).scores)
    ensures Tallied(rows).total == |rows|
  {
    TallyInvariant(rows);
  }

  /** The listed domains are exactly the domains of the rows. */
  lemma {:induction false} TalliedDomains(rows: seq<Outcome>)
    ensures forall d :: d in Tallied(rows).order <==> d in Domains(rows)
  {
    if |rows| > 0 {
      var front := rows[..|rows| - 1];
      TalliedDomains(front);
      TalliedOrderStep(rows);
      assert Domains(rows) == Domains(front) + [rows[|rows| - 1].domain];
    }
  }

  /**
   * The domains are listed in the order of their first rows: each listed domain first
   * appears before the next one does.
   */
  lemma {:induction false} TallyFirstSeen(rows: seq<Outcome>)
    ensures forall d :: d in Tallied(rows).order <==> d in Domains(rows)
    ensures forall i :: 0 < i < |Tallied(rows).order| ==>
      FirstIndex(Domains(rows), Tallied(rows).order[i - 1])
      < FirstIndex(Domains(rows), Tallied(rows).order[i])
  {
    TalliedDomains(rows);
    if |rows| > 0 {
      var front := rows[..|rows| - 1];
      var d := rows[|rows| - 1].domain;
      var order0 := Tallied(front).order;
      var order := Tallied(rows).order;
      TallyFirstSeen(front);
      TalliedDomains(front);
      TalliedOrderStep(rows);
      var ds0 := Domains(front);
      var ds := Domains(rows);
      assert ds == ds0 + [d];
      forall i | 0 < i < |order|
        ensures FirstIndex(ds, order[i - 1]) < FirstIndex(ds, order[i])
      {
        assert order[i - 1] == order0[i - 1];
        FirstIndexAppend(ds0, d, order0[i - 1]);
        if i < |order0| {
          assert order[i] == order0[i];
          FirstIndexAppend(ds0, d, order0[i]);
        } else {
          FirstIndexNew(ds0, d);
        }
      }
    }
  }

  // ---------------------------------------------------------------------------
  // The summary block

  /** How `str.format` prints a score. */
  function ShowNumber(n: Number, showReal: real -> string): string
  {
    match n
    case Int(i) => IntToString(i)
    case Float(x) => showReal(x)
  }

  /** The first summary line; the percentage is a float. */
  function Overview(t: Tally, showReal: real -> string): string
    requires t.total > 0
  {
    "Total_Problems: " + IntToString(t.total) + ",Solved_Problems: " + IntToString(t.solved)
    + ", Percentage_Solved: " + showReal(t.solved as real / t.total as real * 100.0) + "\n"
  }

  /** A domain line: its name, how many rows it had, and their summed score. */
  function DomainLine(d: string, scores: seq<Number>, showReal: real -> string): string
  {
    d + " (" + IntToString(|scores|) + "): " + ShowNumber(SumNumbers(scores), showReal) + "\n"
  }

  /** The domain lines, in the order given. */
  function DomainBlock(order: seq<string>, scores: map<string, seq<Number>>, showReal: real -> string): string
    requires Covers(order, scores)
  {
    if |order| == 0 then ""
    else
      DomainBlock(order[..|order| - 1], scores, showReal)
      + DomainLine(order[|order| - 1], scores[order[|order| - 1]], showReal)
  }

  /** `total_score`, accumulated domain by domain from the int 0. */
  function TotalScore(order: seq<string>, scores: map<string, seq<Number>>): (r: Number)
    requires Covers(order, scores)
    ensures r.Val() == ValOver(order, scores)
  {
    if |order| == 0 then Int(0)
    else Add(TotalScore(order[..|order| - 1], scores), SumNumbers(scores[order[|order| - 1]]))
  }

  function TotalLine(total: Number, showReal: real -> string): string
  {
    "Total Score: " + ShowNumber(total, showReal) + "\n"
  }

  /** The summary block over a tally with at least one row. */
  function Summary(t: Tally, showReal: real -> string): string
    requires Covers(t.order, t.scores) && t.total > 0
  {
    Overview(t, showReal)
    + (DomainBlock(t.order, t.scores, showReal) + TotalLine(TotalScore(t.order, t.scores), showReal))
  }

  /** A printed int holds no line break. */
  lemma IntOnOneLine(i: int)
    ensures '\n' !in IntToString(i)
  {
    var s := IntToString(i);
    assert forall k :: 0 <= k < |s| ==> s[k] != '\n';
  }

  /** A printed number holds no line break when `showReal` never prints one. */
  lemma NumberOnOneLine(n: Number, showReal: real -> string)
    requires forall x: real :: '\n' !in showReal(x)
    ensures '\n' !in ShowNumber(n, showReal)
  {
    if n.Int? {
      IntOnOneLine(n.i);
    }
  }

  /** The overview is one line. */
  lemma OverviewIsALine(t: Tally, showReal: real -> string)
    requires t.total > 0
    requires forall x: real :: '\n' !in showReal(x)
    ensures Lines(Overview(t, showReal)) == [Overview(t, showReal)]
    ensures var o := Overview(t, showReal); |o| > 0 && o[|o| - 1] == '\n'
  {
    IntOnOneLine(t.total);
    IntOnOneLine(t.solved);
    var x := "Total_Problems: " + IntToString(t.total) + ",Solved_Problems: " + IntToString(t.solved)
      + ", Percentage_Solved: " + showReal(t.solved as real / t.total as real * 100.0);
    assert Overview(t, showReal) == x + "\n";
    LinesOfLine(x);
  }

  /** A domain line is one line when the domain name holds no line break. */
  lemma DomainLineIsALine(d: string, scores: seq<Number>, showReal: real -> string)
    requires '\n' !in d
    requires forall x: real :: '\n' !in showReal(x)
    ensures Lines(DomainLine(d, scores, showReal)) == [DomainLine(d, scores, showReal)]
  {
    IntOnOneLine(|scores|);
    NumberOnOneLine(SumNumbers(scores), showReal);
    var x := d + " (" + IntToString(|scores|) + "): " + ShowNumber(SumNumbers(scores), showReal);
    assert DomainLine(d, scores, showReal) == x + "\n";
    LinesOfLine(x);
  }

  /** The total line is one line. */
  lemma TotalLineIsALine(total: Number, showReal: real -> string)
    requires forall x: real :: '\n' !in showReal(x)
    ensures Lines(TotalLine(total, showReal)) == [TotalLine(total, showReal)]
  {
    NumberOnOneLine(total, showReal);
    var x := "Total Score: " + ShowNumber(total, showReal);
    assert TotalLine(total, showReal) == x + "\n";
    LinesOfLine(x);
  }

  /** The domain lines one by one, in the order given. */
  function DomainLineList(order: seq<string>, scores: map<string, seq<Number>>, showReal: real -> string)
    : (ls: seq<string>)
    requires Covers(order, scores)
    ensures |ls| == |order|
  {
    if |order| == 0 then []
    else
      var d := order[|order| - 1];
      DomainLineList(order[..|order| - 1], scores, showReal) + [DomainLine(d, scores[d], showReal)]
  }

  /** The domain block, read back as lines: one per domain, in the order given. */
  lemma {:induction false} DomainBlockLines(order: seq<string>, scores: map<string, seq<Number>>,
                                            showReal: real -> string)
    requires Covers(order, scores)
    requires forall k :: 0 <= k < |order| ==> '\n' !in order[k]
    requires forall x: real :: '\n' !in showReal(x)
    ensures Lines(DomainBlock(order, scores, showReal)) == DomainLineList(order, scores, showReal)
  {
    if |order| > 0 {
      var front, d := order[..|order| - 1], order[|order| - 1];
      var block := DomainBlock(front, scores, showReal);
      var line := DomainLine(d, scores[d], showReal);
      DomainBlockLines(front, scores, showReal);
      DomainLineIsALine(d, scores[d], showReal);
      DomainBlockEnds(front, scores, showReal);
      LinesAppend(block, line);
    }
  }

  /** The domain block is empty or ends with a line break. */
  lemma DomainBlockEnds(order: seq<string>, scores: map<string, seq<Number>>, showReal: real -> string)
    requires Covers(order, scores)
    ensures var block := DomainBlock(order, scores, showReal); |block| == 0 || block[|block| - 1] == '\n'
  {
  }

  /** A line, a block of whole lines and a last line, read back as lines. */
  lemma LinesOfThree(first: string, block: string, last: string, ls: seq<string>)
    requires Lines(first) == [first] && |first| > 0 && first[|first| - 1] == '\n'
    requires (|block| == 0 || block[|block| - 1] == '\n') && Lines(block) == ls
    requires Lines(last) == [last]
    ensures Lines(first + (block + last)) == [first] + ls + [last]
  {
    LinesAppend(block, last);
    LinesAppend(first, block + last);
  }

  /**
   * The summary block, read back as lines: the overview line, one line per domain in
   * the tally's order, and the total line, so two more lines than there are domains.
   */
  lemma SummaryLines(t: Tally, showReal: real -> string)
    requires Covers(t.order, t.scores) && t.total > 0
    requires forall k :: 0 <= k < |t.order| ==> '\n' !in t.order[k]
    requires forall x: real :: '\n' !in showReal(x)
    ensures Lines(Summary(t, showReal))
      == [Overview(t, showReal)] + DomainLineList(t.order, t.scores, showReal)
         + [TotalLine(TotalScore(t.order, t.scores), showReal)]
    ensures |Lines(Summary(t, showReal))| == |t.order| + 2
  {
    var overview := Overview(t, showReal);
    var block := DomainBlock(t.order, t.scores, showReal);
    var total := TotalLine(TotalScore(t.order, t.scores), showReal);
    DomainBlockLines(t.order, t.scores, showReal);
    TotalLineIsALine(TotalScore(t.order, t.scores), showReal);
    OverviewIsALine(t, showReal);
    DomainBlockEnds(t.order, t.scores, showReal);
    LinesOfThree(overview, block, total, DomainLineList(t.order, t.scores, showReal));
  }

  /**
   * The text `calculate_stats` writes over the file: the overview line, the domain
   * lines and the total line, then the content it read. A file with no row fails with
   * ZeroDivisionError.
   */
  function SummaryText(content: string, parseFloat: string -> Option<real>, logRatio: real -> real,
                       showReal: real -> string): Result<string>
  {
    match ReadRows(DataLines(Lines(content)), parseFloat, logRatio)
    case Err(e) => Err(e)
    case Ok(rows) =>
      TalliedCovers(rows);
      if |rows| == 0 then Err(ZeroDivisionError)
      else Ok(Summary(Tallied(rows), showReal) + content)
  }

  /** A file with no row after its header fails, and is left as it was. */
  lemma HeaderOnlyFails(content: string, parseFloat: string -> Option<real>, logRatio: real -> real,
                        showReal: real -> string)
    requires |Lines(content)| <= 1
    ensures SummaryText(content, parseFloat, logRatio, showReal) == Err(ZeroDivisionError)
  {
    assert DataLines(Lines(content)) == [];
  }

  /**
   * On success the summary has counted every line after the first and the original
   * content follows it unchanged.
   */
  lemma SummaryShape(content: string, parseFloat: string -> Option<real>, logRatio: real -> real,
                     showReal: real -> string)
    requires SummaryText(content, parseFloat, logRatio, showReal).Ok?
    ensures ReadRows(DataLines(Lines(content)), parseFloat, logRatio).Ok?
    ensures var text := SummaryText(content, parseFloat, logRatio, showReal).value;
      var t := Tallied(ReadRows(DataLines(Lines(content)), parseFloat, logRatio).value);
      && WellFormed(t)
      && t.total == |Lines(content)| - 1 >= 1
      && text == Summary(t, showReal) + content
      && text[|text| - |content|..] == content
  {
    var rows := ReadRows(DataLines(Lines(content)), parseFloat, logRatio).value;
    TallyInvariant(rows);
  }

  /** The rows among the first k + 1 lines, for k > 0: one more than among the first k. */
  lemma DataLinesNext(lines: seq<string>, k: nat)
    requires 0 < k < |lines|
    ensures DataLines(lines[..k + 1]) == DataLines(lines[..k]) + [lines[k]]
    ensures DataLines(lines)[..k] == DataLines(lines[..k + 1])
  {
  }

  /** Once a row fails, reading more rows keeps that row's error. */
  lemma {:induction false} ReadRowsErrorStays(lines: seq<string>, j: nat, parseFloat: string -> Option<real>,
                                              logRatio: real -> real)
    requires j <= |lines| && ReadRows(lines[..j], parseFloat, logRatio).Err?
    ensures ReadRows(lines, parseFloat, logRatio) == ReadRows(lines[..j], parseFloat, logRatio)
    decreases |lines| - j
  {
    if j < |lines| {
      var front := lines[..|lines| - 1];
      assert front[..j] == lines[..j];
      ReadRowsErrorStays(front, j, parseFloat, logRatio);
    } else {
      assert lines[..j] == lines;
    }
  }

  // ---------------------------------------------------------------------------
  // The summariser

  /**
   * `calculate_stats` over the text read from the file: the row loop, then the loop
   * over domains that builds the domain lines and the total score.
   */
  method Summarise(content: string, parseFloat: string -> Option<real>, logRatio: real -> real,
                   showReal: real -> string) returns (r: Result<string>)
    ensures r == SummaryText(content, parseFloat, logRatio, showReal)
  {
    var counted := CountRows(Lines(content), parseFloat, logRatio);
    if counted.Err? {
      return Err(counted.error);
    }
    var t := counted.value;
    TalliedCovers(ReadRows(DataLines(Lines(content)), parseFloat, logRatio).value);
    if t.total == 0 {
      return Err(ZeroDivisionError);
    }
    var overview := Overview(t, showReal);
    var domainText, totalScore := DomainLines(t.order, t.scores, showReal);
    domainText := domainText + TotalLine(totalScore, showReal);
    r := Ok(overview + domainText + content);
  }

  /**
   * The row loop: every line after the first (the line counter starts at 1) is scored
   * and filed under its domain; the first row that fails ends the loop with its error.
   */
  method CountRows(lines: seq<string>, parseFloat: string -> Option<real>, logRatio: real -> real)
    returns (r: Result<Tally>)
    ensures match ReadRows(DataLines(lines), parseFloat, logRatio)
      case Err(e) => r == Err(e)
      case Ok(rows) => r == Ok(Tallied(rows))
  {
    var lineNum := 1;
    var solvedProblems := 0;
    var totalProblems := 0;
    var order: seq<string> := [];
    var scores: map<string, seq<Number>> := map[];
    ghost var rows: seq<Outcome> := [];
    var k := 0;
    while k < |lines|
      invariant 0 <= k <= |lines|
      invariant lineNum == k + 1
      invariant ReadRows(DataLines(lines[..k]), parseFloat, logRatio) == Ok(rows)
      invariant Tallied(rows) == Tally(solvedProblems, totalProblems, order, scores)
    {
      var line := lines[k];
      if lineNum > 1 {
        DataLinesNext(lines, k);
        ReadRowsSnoc(DataLines(lines[..k]), line, parseFloat, logRatio);
        var domain := DomainOf(line);
        var result := LineResult(line, parseFloat, logRatio);
        if result.Err? {
          ReadRowsErrorStays(DataLines(lines), k, parseFloat, logRatio);
          return Err(result.error);
        }
        var solved := result.value.0;
        var score := result.value.1;
        ghost var o := Outcome(domain, solved, score);
        TalliedSnoc(rows, o);
        solvedProblems, totalProblems, order, scores :=
          FileRow(solvedProblems, totalProblems, order, scores, domain, solved, score);
        rows := rows + [o];
      } else {
        assert DataLines(lines[..k + 1]) == [];
      }
      lineNum := lineNum + 1;
      k := k + 1;
    }
    assert lines[..k] == lines;
    r := Ok(Tally(solvedProblems, totalProblems, order, scores));
  }

  /** Files one scored row: a new domain is listed and given an empty score list first. */
  method FileRow(solved0: nat, total0: nat, order0: seq<string>, scores0: map<string, seq<Number>>,
                 domain: string, solved: bool, score: Number)
    returns (solvedProblems: nat, totalProblems: nat, order: seq<string>, scores: map<string, seq<Number>>)
    ensures Tally(solvedProblems, totalProblems, order, scores)
      == Record(Tally(solved0, total0, order0, scores0), domain, solved, score)
  {
    solvedProblems, totalProblems, order, scores := solved0, total0, order0, scores0;
    if solved {
      solvedProblems := solvedProblems + 1;
    }
    if domain !in scores {
      order := order + [domain];
      scores := scores[domain := []];
    }
    scores := scores[domain := scores[domain] + [score]];
    totalProblems := totalProblems + 1;
  }

  /**
   * The loop over the domains in first-seen order: one line per domain, and the total
   * score summed from the int 0.
   */
  method DomainLines(order: seq<string>, scores: map<string, seq<Number>>, showReal: real -> string)
    returns (domainText: string, totalScore: Number)
    requires Covers(order, scores)
    ensures domainText == DomainBlock(order, scores, showReal)
    ensures totalScore == TotalScore(order, scores)
    ensures totalScore.Val() == ValOver(order, scores)
  {
    totalScore := Int(0);
    domainText := "";
    var i := 0;
    while i < |order|
      invariant 0 <= i <= |order|
      invariant totalScore == TotalScore(order[..i], scores)
      invariant domainText == DomainBlock(order[..i], scores, showReal)
    {
      var d := order[i];
      assert order[..i + 1][..i] == order[..i];
      totalScore := Add(totalScore, SumNumbers(scores[d]));
      domainText := domainText + DomainLine(d, scores[d], showReal);
      i := i + 1;
    }
    assert order[..i] == order;
  }

  /** Writing `text` from the start of a file that held `before`. */
  function Overwrite(before: string, text: string): string
  {
    if |text| < |before| then text + before[|text|..] else text
  }

  /**
   * `calculate_stats`: opens the file for reading and writing (a missing path or a
   * directory is an OSError), summarises it, and writes the summary over it from the
   * start. Any error leaves the file system unchanged.
   */
  method CalculateStats(fs: FileSystem, path: string, parseFloat: string -> Option<real>,
                        logRatio: real -> real, showReal: real -> string) returns (r: Result<()>)
    requires fs.Valid()
    modifies fs
    ensures fs.Valid()
    ensures fs.dirs == old(fs.dirs)
    ensures path !in old(fs.files) ==> r == Err(OSError(path)) && fs.files == old(fs.files)
    ensures path in old(fs.files) ==>
      var summary := SummaryText(old(fs.files[path]), parseFloat, logRatio, showReal);
      && (summary.Err? ==> r == Err(summary.error) && fs.files == old(fs.files))
      && (summary.Ok? ==> r == Ok(()) && fs.files == old(fs.files)[path := summary.value])
  {
    if path !in fs.files {
      return Err(OSError(path));
    }
    var rewritten := Rewrite(fs.files[path], parseFloat, logRatio, showReal);
    r := Store(fs, path, rewritten);
  }

  /** Writes the new text of an open file back, or reports the error that stopped it. */
  method Store(fs: FileSystem, path: string, text: Result<string>) returns (r: Result<()>)
    requires fs.Valid() && path in fs.files
    modifies fs
    ensures fs.Valid()
    ensures fs.dirs == old(fs.dirs)
    ensures text.Err? ==> r == Err(text.error) && fs.files == old(fs.files)
    ensures text.Ok? ==> r == Ok(()) && fs.files == old(fs.files)[path := text.value]
  {
    if text.Err? {
      return Err(text.error);
    }
    fs.files := fs.files[path := text.value];
    r := Ok(());
  }

  /** The file's text after the summary is written over it from the start. */
  method Rewrite(content: string, parseFloat: string -> Option<real>, logRatio: real -> real,
                 showReal: real -> string) returns (r: Result<string>)
    ensures r == SummaryText(content, parseFloat, logRatio, showReal)
  {
    var summary := Summarise(content, parseFloat, logRatio, showReal);
    if summary.Err? {
      return summary;
    }
    SummaryCoversContent(content, parseFloat, logRatio, showReal);
    r := Ok(Overwrite(content, summary.value));
  }

  /** The summary is at least as long as the file, so writing it from the start replaces every character. */
  lemma SummaryCoversContent(content: string, parseFloat: string -> Option<real>, logRatio: real -> real,
                             showReal: real -> string)
    requires SummaryText(content, parseFloat, logRatio, showReal).Ok?
    ensures var text := SummaryText(content, parseFloat, logRatio, showReal).value;
      Overwrite(content, text) == text
  {
    SummaryShape(content, parseFloat, logRatio, showReal);
  }
}
