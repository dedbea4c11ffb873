/**
 * Values and Python string operations shared by the harness model: the error
 * kinds Python raises, the "N/A" cell, Python numbers that remember whether
 * they are an int or a float, and the str methods the scripts rely on
 * (find, rfind, slicing with negative indices, split, join, upper, str(int)).
 */
module Common {

  datatype Option<T> = None | Some(value: T)

  /** The exceptions the harness can raise, by Python class. */
  datatype Error =
    | ValueError(message: string)
    | IndexError
    | ZeroDivisionError
    | OSError(path: string)

  datatype Result<T> = Ok(value: T) | Err(error: Error)

  /** A results-row cell that is either a value or the text "N/A". */
  datatype Maybe<T> = Value(v: T) | NA

  /** A Python number; an int and a float of the same value print differently. */
  datatype Number = Int(i: int) | Float(x: real)
  {
    function Val(): real
    {
      match this
      case Int(i) => i as real
      case Float(x) => x
    }
  }

  /** Python's `a + b` on numbers: int + int stays an int, anything with a float is a float. */
  function Add(a: Number, b: Number): (r: Number)
    ensures r.Val() == a.Val() + b.Val()
    ensures r.Int? <==> a.Int? && b.Int?
  {
    if a.Int? && b.Int? then Int(a.i + b.i) else Float(a.Val() + b.Val())
  }

  // ---------------------------------------------------------------------------
  // str.find / str.rfind / slicing

  /** `s.find(c)`: the first index of `c`, or -1. */
  function Find(s: string, c: char): (r: int)
    ensures -1 <= r < |s|
    ensures r == -1 <==> c !in s
    ensures r >= 0 ==> s[r] == c && c !in s[..r]
  {
    if |s| == 0 then -1
    else if s[0] == c then 0
    else
      var k := Find(s[1..], c);
      assert s[1..][..if k < 0 then 0 else k] == s[1..1 + (if k < 0 then 0 else k)];
      if k == -1 then -1 else k + 1
  }

  /** An occurrence with none before it is the one `Find` returns. */
  lemma FindFirst(s: string, c: char, i: nat)
    requires i < |s| && s[i] == c && c !in s[..i]
    ensures Find(s, c) == i
  {
    var g := Find(s, c);
    assert s[..g] == s[..i][..g] || g > i;
  }

  /** `s.rfind(c)`: the last index of `c`, or -1. */
  function RFind(s: string, c: char): (r: int)
    ensures -1 <= r < |s|
    ensures r == -1 <==> c !in s
    ensures r >= 0 ==> s[r] == c && c !in s[r + 1..]
  {
    if |s| == 0 then -1
    else if s[|s| - 1] == c then |s| - 1
    else
      var k := RFind(s[..|s| - 1], c);
      assert k >= 0 ==> s[k + 1..] == s[..|s| - 1][k + 1..] + [s[|s| - 1]];
      k
  }

  /** How Python turns a slice bound into a position: negative counts from the end, then clamp. */
  function PyIndex(k: int, n: nat): (r: nat)
    ensures r <= n
    ensures 0 <= k <= n ==> r == k
    ensures -(n as int) <= k < 0 ==> r == k + n
  {
    if k < 0 then (if k + n < 0 then 0 else k + n)
    else if k > n then n
    else k
  }

  /** `s[i:j]` with Python's rules for negative and out-of-range bounds. */
  function PySlice(s: string, i: int, j: int): (r: string)
    ensures |r| <= |s|
    ensures 0 <= i <= j <= |s| ==> r == s[i..j]
    ensures 0 <= i <= |s| <= j ==> r == s[i..]
    ensures 0 <= i && -(|s| as int) <= j < 0 && i <= j + |s| ==> r == s[i..j + |s|]
    ensures 0 <= j <= i || i >= |s| || j <= -(|s| as int) ==> r == ""
  {
    var a, b := PyIndex(i, |s|), PyIndex(j, |s|);
    if a < b then s[a..b] else ""
  }

  /** Whatever the bounds, a slice is one contiguous piece of the text. */
  lemma PySlicePiece(s: string, i: int, j: int)
    ensures exists a, b :: 0 <= a <= b <= |s| && PySlice(s, i, j) == s[a..b]
  {
    var a, b := PyIndex(i, |s|), PyIndex(j, |s|);
    if a >= b {
      assert PySlice(s, i, j) == s[0..0];
    }
  }

  // ---------------------------------------------------------------------------
  // Occurrences of a character

  /** The number of occurrences of `c` in `s` (`s.count(c)`). */
  function Count(s: string, c: char): nat
  {
    if |s| == 0 then 0
    else Count(s[..|s| - 1], c) + (if s[|s| - 1] == c then 1 else 0)
  }

  /** `[m.start() for m in re.finditer(c, s)]` for a one-character pattern. */
  function Positions(s: string, c: char): (ps: seq<nat>)
    ensures |ps| == Count(s, c)
    ensures forall k :: 0 <= k < |ps| ==> ps[k] < |s| && s[ps[k]] == c
    ensures forall k, l :: 0 <= k < l < |ps| ==> ps[k] < ps[l]
    ensures forall i :: 0 <= i < |s| && s[i] == c ==> i in ps
  {
    if |s| == 0 then []
    else
      var front := Positions(s[..|s| - 1], c);
      front + (if s[|s| - 1] == c then [|s| - 1] else [])
  }

  /** A string in which every occurrence of `c` sits at index `j` counts `c` once. */
  lemma {:induction false} CountSingle(s: string, c: char, j: nat)
    requires j < |s| && s[j] == c
    requires forall i :: 0 <= i < |s| && s[i] == c ==> i == j
    ensures Count(s, c) == 1
  {
    if j == |s| - 1 {
      CountAbsent(s[..|s| - 1], c);
    } else {
      CountSingle(s[..|s| - 1], c, j);
    }
  }

  lemma {:induction false} CountAbsent(s: string, c: char)
    requires c !in s
    ensures Count(s, c) == 0
  {
    if |s| > 0 {
      CountAbsent(s[..|s| - 1], c);
    }
  }

  /** `s.count(c)` is the number of times `c` occurs in `s`: its multiplicity in the multiset of `s`. */
  lemma {:induction false} CountIsMultiplicity(s: string, c: char)
    ensures Count(s, c) == multiset(s)[c]
  {
    if |s| > 0 {
      var front := s[..|s| - 1];
      CountIsMultiplicity(front, c);
      assert s == front + [s[|s| - 1]];
      assert multiset(s) == multiset(front) + multiset([s[|s| - 1]]);
    }
  }

  /** A character that is counted occurs. */
  lemma CountedOccurs(s: string, c: char)
    ensures Count(s, c) > 0 ==> c in s
  {
    if c !in s {
      CountAbsent(s, c);
    }
  }

  // ---------------------------------------------------------------------------
  // str.split / str.join on one separator character

  /** `s.split(sep)`: never empty, and no piece holds the separator. */
  function Split(s: string, sep: char): (parts: seq<string>)
    ensures |parts| >= 1
    ensures forall k :: 0 <= k < |parts| ==> sep !in parts[k]
    decreases |s|
  {
    var k := Find(s, sep);
    if k == -1 then [s] else [s[..k]] + Split(s[k + 1..], sep)
  }

  /** `sep.join(parts)`. */
  function Join(parts: seq<string>, sep: char): string
  {
    if |parts| == 0 then ""
    else if |parts| == 1 then parts[0]
    else parts[0] + [sep] + Join(parts[1..], sep)
  }

  /** The last piece of a join follows the last separator. */
  lemma {:induction false} JoinLast(parts: seq<string>, sep: char)
    requires |parts| >= 2
    ensures Join(parts, sep) == Join(parts[..|parts| - 1], sep) + [sep] + parts[|parts| - 1]
  {
    if |parts| > 2 {
      JoinLast(parts[1..], sep);
      assert parts[1..][..|parts| - 2] == parts[..|parts| - 1][1..];
    }
  }

  /** Splitting what was joined gives back the pieces, when no piece holds the separator. */
  lemma {:induction false} SplitJoin(parts: seq<string>, sep: char)
    requires |parts| >= 1
    requires forall k :: 0 <= k < |parts| ==> sep !in parts[k]
    ensures Split(Join(parts, sep), sep) == parts
  {
    if |parts| > 1 {
      var a := parts[0];
      var b := Join(parts[1..], sep);
      JoinCons(a, parts[1..], sep);
      assert [a] + parts[1..] == parts;
      SplitAfterPrefix(a, sep, b);
      SplitJoin(parts[1..], sep);
    } else {
      SplitWhole(parts[0], sep);
    }
  }

  /** `sep.join` of a piece followed by at least one more. */
  lemma JoinCons(a: string, rest: seq<string>, sep: char)
    requires |rest| >= 1
    ensures Join([a] + rest, sep) == a + [sep] + Join(rest, sep)
  {
    assert ([a] + rest)[1..] == rest;
  }

  /** A string without the separator splits into itself. */
  lemma SplitWhole(a: string, sep: char)
    requires sep !in a
    ensures Split(a, sep) == [a]
  {
  }

  /** A piece without the separator, the separator, then the rest: the piece comes off first. */
  lemma SplitAfterPrefix(a: string, sep: char, b: string)
    requires sep !in a
    ensures Split(a + [sep] + b, sep) == [a] + Split(b, sep)
  {
    var s := a + [sep] + b;
    FindAfterPrefix(a, sep, b);
    ConcatAround(a, sep, b);
    SplitStep(s, sep);
  }

  /** The pieces of `a + [sep] + b` around the separator. */
  lemma ConcatAround(a: string, sep: char, b: string)
    ensures (a + [sep] + b)[..|a|] == a
    ensures (a + [sep] + b)[|a|] == sep
    ensures (a + [sep] + b)[|a| + 1..] == b
  {
  }

  /** One step of `Split`: the text before the first separator comes off. */
  lemma SplitStep(s: string, sep: char)
    requires sep in s
    ensures var k := Find(s, sep); Split(s, sep) == [s[..k]] + Split(s[k + 1..], sep)
  {
  }

  lemma FindAfterPrefix(a: string, sep: char, b: string)
    requires sep !in a
    ensures Find(a + [sep] + b, sep) == |a|
  {
    var s := a + [sep] + b;
    ConcatAround(a, sep, b);
    FindFirst(s, sep, |a|);
  }

  /** Joining what was split gives back the string. */
  lemma {:induction false} JoinSplit(s: string, sep: char)
    ensures Join(Split(s, sep), sep) == s
    decreases |s|
  {
    var k := Find(s, sep);
    if k == -1 {
      SplitWhole(s, sep);
    } else {
      var rest := s[k + 1..];
      SplitStep(s, sep);
      JoinSplit(rest, sep);
      JoinCons(s[..k], Split(rest, sep), sep);
      Reassemble(s, k);
    }
  }

  /** A separator at `j`, with none between `i` and it: the piece `s[i..j]` comes off first. */
  lemma SplitFrom(s: string, sep: char, i: nat, j: nat)
    requires i <= j < |s| && s[j] == sep && sep !in s[i..j]
    ensures Split(s[i..], sep) == [s[i..j]] + Split(s[j + 1..], sep)
  {
    assert s[i..] == s[i..j] + [sep] + s[j + 1..];
    SplitAfterPrefix(s[i..j], sep, s[j + 1..]);
  }

  /** Between two consecutive entries of `ps`, and before the first, `c` does not occur. */
  lemma GapBetween(s: string, c: char, ps: seq<nat>, lo: nat, m: nat)
    requires m < |ps|
    requires forall k :: 0 <= k < |ps| ==> ps[k] < |s|
    requires forall k, l :: 0 <= k < l < |ps| ==> ps[k] < ps[l]
    requires forall i :: 0 <= i < |s| && s[i] == c ==> i in ps
    requires lo == if m == 0 then 0 else ps[m - 1] + 1
    ensures lo <= ps[m] && c !in s[lo..ps[m]]
  {
    if m > 0 {
      assert ps[m - 1] < ps[m];
    }
    var t := s[lo..ps[m]];
    forall k | 0 <= k < |t|
      ensures t[k] != c
    {
      var i := lo + k;
      assert t[k] == s[i];
      forall l | 0 <= l < |ps|
        ensures ps[l] != i
      {
        if l + 1 < m {
          assert ps[l] < ps[m - 1];
        } else if l > m {
          assert ps[m] < ps[l];
        }
      }
    }
  }

  /**
   * The third piece of `s.split(sep)` is the text between the second and third
   * entries of an increasing list `ps` of positions that holds every occurrence of
   * `sep` (such as `Positions(s, sep)` when `sep` occurs at least three times).
   */
  lemma ThirdPiece(s: string, sep: char, ps: seq<nat>)
    requires |ps| >= 3
    requires forall k :: 0 <= k < |ps| ==> ps[k] < |s| && s[ps[k]] == sep
    requires forall k, l :: 0 <= k < l < |ps| ==> ps[k] < ps[l]
    requires forall i :: 0 <= i < |s| && s[i] == sep ==> i in ps
    ensures ps[1] + 1 <= ps[2] < |s| && |Split(s, sep)| >= 4 && Split(s, sep)[2] == s[ps[1] + 1..ps[2]]
  {
    GapBetween(s, sep, ps, 0, 0);
    GapBetween(s, sep, ps, ps[0] + 1, 1);
    GapBetween(s, sep, ps, ps[1] + 1, 2);
    assert s[0..ps[0]] == s[..ps[0]];
    SplitThree(s, sep, ps[0], ps[1], ps[2], ps[0] + 1, ps[1] + 1);
  }

  /** Three separators at `p0 < p1 < p2` with none before or between them; `q0`, `q1` follow `p0`, `p1`. */
  lemma SplitThree(s: string, sep: char, p0: nat, p1: nat, p2: nat, q0: nat, q1: nat)
    requires p0 < p1 < p2 < |s| && s[p0] == sep && s[p1] == sep && s[p2] == sep
    requires q0 == p0 + 1 && q1 == p1 + 1
    requires sep !in s[..p0] && sep !in s[q0..p1] && sep !in s[q1..p2]
    ensures |Split(s, sep)| >= 4 && Split(s, sep)[2] == s[q1..p2]
  {
    var a, b, d, e := s[..p0], s[q0..p1], s[q1..p2], s[p2 + 1..];
    Decompose(s, sep, p0, p1, p2);
    var x := a + [sep] + (b + [sep] + (d + [sep] + e));
    assert s == x;
    ThirdOfPieces(a, b, d, e, sep);
    assert |Split(x, sep)| >= 4;
    assert Split(s, sep) == Split(x, sep);
  }

  /** A string cut at three separators is its four pieces joined by them. */
  lemma Decompose(s: string, sep: char, p0: nat, p1: nat, p2: nat)
    requires p0 < p1 < p2 < |s| && s[p0] == sep && s[p1] == sep && s[p2] == sep
    ensures s == s[..p0] + [sep] + (s[p0 + 1..p1] + [sep] + (s[p1 + 1..p2] + [sep] + s[p2 + 1..]))
  {
    assert s[p1 + 1..] == s[p1 + 1..p2] + [sep] + s[p2 + 1..];
    assert s[p0 + 1..] == s[p0 + 1..p1] + [sep] + s[p1 + 1..];
    assert s == s[..p0] + [sep] + s[p0 + 1..];
  }

  /** Splitting three separator-free pieces and a tail joined by the separator gives the third piece third. */
  lemma ThirdOfPieces(a: string, b: string, d: string, e: string, sep: char)
    requires sep !in a && sep !in b && sep !in d
    ensures var parts := Split(a + [sep] + (b + [sep] + (d + [sep] + e)), sep);
      |parts| >= 4 && parts[2] == d
  {
    SplitAfterPrefix(a, sep, b + [sep] + (d + [sep] + e));
    SplitAfterPrefix(b, sep, d + [sep] + e);
    SplitAfterPrefix(d, sep, e);
    ThirdOfChain(Split(a + [sep] + (b + [sep] + (d + [sep] + e)), sep), Split(b + [sep] + (d + [sep] + e), sep),
                 Split(d + [sep] + e, sep), Split(e, sep), a, b, d);
  }

  lemma ThirdOfChain(x: seq<string>, y: seq<string>, z: seq<string>, w: seq<string>,
                     a: string, b: string, d: string)
    requires x == [a] + y && y == [b] + z && z == [d] + w && |w| >= 1
    ensures |x| >= 4 && x[2] == d
  {
    assert y[1] == d;
  }

  /** A string is what lies before position `k`, the character there, and what follows. */
  lemma Reassemble(s: string, k: nat)
    requires k < |s|
    ensures s == s[..k] + [s[k]] + s[k + 1..]
  {
  }

  // ---------------------------------------------------------------------------
  // str(int) and str.upper()

  function DigitChar(d: nat): (c: char)
    requires d < 10
    ensures '0' <= c <= '9'
    ensures c as int - '0' as int == d
  {
    "0123456789"[d]
  }

  /** `str(n)` for a non-negative int: decimal digits, most significant first. */
  function NatToString(n: nat): (s: string)
    ensures |s| >= 1
    ensures forall k :: 0 <= k < |s| ==> '0' <= s[k] <= '9'
  {
    if n < 10 then [DigitChar(n)] else NatToString(n / 10) + [DigitChar(n % 10)]
  }

  /** The value of a string of decimal digits (the reading of `int(s)`). */
  function DigitsValue(s: string): nat
    requires forall k :: 0 <= k < |s| ==> '0' <= s[k] <= '9'
  {
    if |s| == 0 then 0
    else 10 * DigitsValue(s[..|s| - 1]) + (s[|s| - 1] as int - '0' as int)
  }

  /** `str(n)` determines `n`: reading the digits back gives the number. */
  lemma {:induction false} NatToStringRoundTrip(n: nat)
    ensures DigitsValue(NatToString(n)) == n
  {
    if n >= 10 {
      var s := NatToString(n);
      assert s[..|s| - 1] == NatToString(n / 10);
      NatToStringRoundTrip(n / 10);
    }
  }

  /** `str(i)` for any int. */
  function IntToString(i: int): (s: string)
    ensures |s| >= 1
    ensures forall k :: 1 <= k < |s| ==> '0' <= s[k] <= '9'
    ensures i >= 0 ==> '0' <= s[0] <= '9' && DigitsValue(s) == i
    ensures i < 0 ==> s[0] == '-' && |s| >= 2 && DigitsValue(s[1..]) == -i
  {
    if i < 0 then
      NatToStringRoundTrip(-i);
      var t := NatToString(-i);
      assert ("-" + t)[1..] == t;
      "-" + t
    else
      NatToStringRoundTrip(i);
      NatToString(i)
  }

  function UpperChar(c: char): char
  {
    if 'a' <= c <= 'z' then (c as int - 32) as char else c
  }

  /**
   * `s.upper()` on the ASCII letters: no lower-case letter is left, every other
   * character stays, and text without lower-case letters is returned as it is.
   */
  function Upper(s: string): (u: string)
    ensures |u| == |s|
    ensures forall k :: 0 <= k < |u| ==> !('a' <= u[k] <= 'z')
    ensures forall k :: 0 <= k < |s| && 'a' <= s[k] <= 'z' ==> u[k] as int == s[k] as int - 32
    ensures forall k :: 0 <= k < |s| && !('a' <= s[k] <= 'z') ==> u[k] == s[k]
    ensures (forall k :: 0 <= k < |s| ==> !('a' <= s[k] <= 'z')) ==> u == s
  {
    seq(|s|, k requires 0 <= k < |s| => UpperChar(s[k]))
  }

  /** Upper-casing gives "TRUE" exactly for the spellings of "true" in any mix of cases. */
  lemma UpperIsTrue(f: string)
    ensures Upper(f) == "TRUE" <==>
      |f| == 4 && f[0] in "Tt" && f[1] in "Rr" && f[2] in "Uu" && f[3] in "Ee"
  {
    if |f| == 4 {
      var u := Upper(f);
      assert u[0] == UpperChar(f[0]) && u[1] == UpperChar(f[1]);
      assert u[2] == UpperChar(f[2]) && u[3] == UpperChar(f[3]);
      if u == "TRUE" {
        assert u[0] == 'T' && u[1] == 'R' && u[2] == 'U' && u[3] == 'E';
      }
    }
  }

  /** Python's `str(b)` for a bool. */
  function BoolToString(b: bool): string
  {
    if b then "True" else "False"
  }

  /** A flag written as `str(b)` upper-cases to "TRUE" exactly when `b` holds. */
  lemma BoolReadsBack(b: bool)
    ensures Upper(BoolToString(b)) == "TRUE" <==> b
  {
    UpperIsTrue(BoolToString(b));
    if !b {
      assert |Upper("False")| == 5;
    }
  }
}
