// Value types and helpers shared by every component of the bot.

module Wrappers {
  /** An optional value: the model's stand-in for a null pointer, an absent
      map entry or "no match". */
  datatype Option<+T> = None | Some(value: T)
}

/** Facts about sequences that several components need. */
module Sequences {
  /** Concatenation is associative. */
  lemma AppendAssoc<T>(a: seq<T>, b: seq<T>, c: seq<T>)
    ensures a + b + c == a + (b + c)
  {
  }
}

/** C++ arithmetic that differs from Dafny's: integer division and the
    float-to-int cast both truncate toward zero. */
module CNumerics {

  function Abs(x: int): nat { if x < 0 then -x else x }

  function RealAbs(x: real): real { if x < 0.0 then -x else x }

  /** `a / b` on C++ integers (truncation toward zero). */
  function CDiv(a: int, b: int): int
    requires b != 0
  {
    if a >= 0 then (if b > 0 then a / b else -(a / -b))
    else (if b > 0 then -((-a) / b) else (-a) / (-b))
  }

  /** `static_cast<int>(x)` of a real value (truncation toward zero). */
  function TruncReal(x: real): int
  {
    if x >= 0.0 then x.Floor else -((-x).Floor)
  }

  /** Truncation drops less than 1 in magnitude and keeps the sign. */
  lemma TruncRealBounds(x: real)
    ensures RealAbs(TruncReal(x) as real) <= RealAbs(x) < RealAbs(TruncReal(x) as real) + 1.0
    ensures (x >= 0.0 ==> TruncReal(x) >= 0) && (x <= 0.0 ==> TruncReal(x) <= 0)
  {
  }

  function Min(a: int, b: int): int { if a <= b then a else b }

  function Max(a: int, b: int): int { if a >= b then a else b }
}

/** Points over the reals, integer rectangles and abstract frames. */
module Geometry {
  import CNumerics

  /** cv::Point2f, with float rounding left out. */
  datatype Point = Point(x: real, y: real)

  /** cv::Rect. */
  datatype Rect = Rect(x: int, y: int, width: int, height: int)

  /** A captured frame (cv::Mat). Only its size matters to the core; `pixels`
      stands for the image content, which the detectors read. */
  datatype Frame = Frame(rows: nat, cols: nat, pixels: nat)

  const EmptyFrame := Frame(0, 0, 0)

  /** cv::Mat::empty(): a matrix without elements. */
  predicate IsEmpty(f: Frame) { f.rows == 0 || f.cols == 0 }

  function Plus(p: Point, q: Point): Point { Point(p.x + q.x, p.y + q.y) }

  function Minus(p: Point, q: Point): Point { Point(p.x - q.x, p.y - q.y) }

  function NormSq(p: Point): (r: real)
    ensures r >= 0.0
  {
    p.x * p.x + p.y * p.y
  }

  /** `sqrt` is the exact square root on the non-negative reals. The model
      receives std::sqrt (and the root inside cv::norm) as such a parameter. */
  ghost predicate IsSqrt(sqrt: real -> real)
  {
    forall v :: 0.0 <= v ==> 0.0 <= sqrt(v) && sqrt(v) * sqrt(v) == v
  }

  /** cv::norm of a 2-D point: its Euclidean length. */
  function Norm(p: Point, sqrt: real -> real): (r: real)
    requires IsSqrt(sqrt)
    ensures r >= 0.0 && r * r == NormSq(p)
  {
    sqrt(NormSq(p))
  }

  /** Comparing a length with a non-negative bound is the same as comparing
      squares, so a guard `norm(p) > k` can be decided without a root. */
  lemma NormAboveIff(p: Point, sqrt: real -> real, k: real)
    requires IsSqrt(sqrt) && k >= 0.0
    ensures Norm(p, sqrt) > k <==> NormSq(p) > k * k
  {
    var n := Norm(p, sqrt);
    if n > k {
      var a, b := n - k, n + k;
      PositiveProduct(a, b);
      assert a * b == n * n - k * k;
      assert n * n == NormSq(p);
      assert NormSq(p) > k * k;
    } else {
      var a, b := k - n, k + n;
      NonNegativeProduct(a, b);
      assert a * b == k * k - n * n;
      assert n * n == NormSq(p);
    }
  }

  /** The product a * b of two positive reals, named, with its sign. */
  lemma PositiveProductOf(a: real, b: real) returns (p: real)
    requires a > 0.0 && b > 0.0
    ensures p == a * b && p > 0.0
  {
    p := a * b;
  }

  /** A real whose square is 0 is 0. */
  lemma SquareZero(z: real)
    requires z * z == 0.0
    ensures z == 0.0
  {
    if z > 0.0 {
      var p := PositiveProductOf(z, z);
    } else if z < 0.0 {
      var p := PositiveProductOf(-z, -z);
    }
  }

  /** The origin has length 0. */
  lemma NormOfOrigin(sqrt: real -> real)
    requires IsSqrt(sqrt)
    ensures Norm(Point(0.0, 0.0), sqrt) == 0.0
  {
    SquareZero(Norm(Point(0.0, 0.0), sqrt));
  }

  lemma PositiveProduct(a: real, b: real)
    requires a > 0.0 && b > 0.0
    ensures a * b > 0.0
  {
  }

  lemma NonNegativeProduct(a: real, b: real)
    requires a >= 0.0 && b >= 0.0
    ensures a * b >= 0.0
  {
  }

  /** The centre the source computes for a rectangle, `x + width/2` with
      integer division. */
  function Centre(r: Rect): (c: Point)
    ensures r.width >= 0 ==> r.x as real <= c.x && 2.0 * (c.x - r.x as real) <= r.width as real
                             && r.width as real <= 2.0 * (c.x - r.x as real) + 1.0
    ensures r.height >= 0 ==> r.y as real <= c.y && 2.0 * (c.y - r.y as real) <= r.height as real
                              && r.height as real <= 2.0 * (c.y - r.y as real) + 1.0
  {
    Point((r.x + CNumerics.CDiv(r.width, 2)) as real, (r.y + CNumerics.CDiv(r.height, 2)) as real)
  }
}

/** String helpers with the semantics of the C++ standard library calls the
    source uses (ASCII ::tolower, std::string::find, std::regex classes). */
module Text {
  import opened Wrappers

  /** ::tolower in the "C" locale. */
  function LowerChar(c: char): char
  {
    if 'A' <= c <= 'Z' then (c as int + 32) as char else c
  }

  function ToLower(s: string): (r: string)
    ensures |r| == |s|
  {
    seq(|s|, i requires 0 <= i < |s| => LowerChar(s[i]))
  }

  /** `t` occurs in `s` at index `i`. */
  predicate IsAt(s: string, t: string, i: int)
  {
    0 <= i && i + |t| <= |s| && s[i..i + |t|] == t
  }

  /** `t` is a substring of `s`. */
  predicate Contains(s: string, t: string)
  {
    exists i :: 0 <= i <= |s| && IsAt(s, t, i)
  }

  /** std::string::find(t, from): the first occurrence at or after `from`. */
  function FindFrom(s: string, t: string, from: nat): (r: Option<nat>)
    decreases |s| - from
    ensures r.Some? ==> from <= r.value && IsAt(s, t, r.value)
    ensures r.Some? ==> forall j :: from <= j < r.value ==> !IsAt(s, t, j)
    ensures r.None? ==> forall j :: from <= j ==> !IsAt(s, t, j)
  {
    if from + |t| > |s| then None
    else if s[from..from + |t|] == t then Some(from)
    else FindFrom(s, t, from + 1)
  }

  /** `find(t) != npos` is exactly the substring test. */
  lemma FindIffContains(s: string, t: string)
    ensures FindFrom(s, t, 0).Some? <==> Contains(s, t)
  {
    var r := FindFrom(s, t, 0);
    if r.Some? {
      assert IsAt(s, t, r.value);
    }
  }

  /** `s.replace(s.find(pat), |pat|, rep)` when `pat` occurs, `s` otherwise. */
  function ReplaceFirst(s: string, pat: string, rep: string): (r: string)
    ensures !Contains(s, pat) ==> r == s
  {
    match FindFrom(s, pat, 0)
    case None => s
    case Some(i) => s[..i] + rep + s[i + |pat|..]
  }

  /** ReplaceFirst rewrites exactly the first occurrence and keeps everything
      around it. */
  lemma ReplaceFirstSplits(s: string, pat: string, rep: string, i: nat)
    requires IsAt(s, pat, i)
    requires forall j :: 0 <= j < i ==> !IsAt(s, pat, j)
    ensures ReplaceFirst(s, pat, rep) == s[..i] + rep + s[i + |pat|..]
  {
    var r := FindFrom(s, pat, 0);
    assert r.Some?;
    assert IsAt(s, pat, r.value) && IsAt(s, pat, i);
    assert r.value == i;
  }

  /** The regex class \s in the "C" locale: space, \t, \n, \v, \f and \r. */
  predicate IsSpace(c: char) { c == ' ' || 9 <= c as int <= 13 }

  /** The regex class \w: letters, digits and underscore. */
  predicate IsWordChar(c: char)
  {
    ('a' <= c <= 'z') || ('A' <= c <= 'Z') || ('0' <= c <= '9') || c == '_'
  }

  predicate AllWordChars(s: string) { forall i :: 0 <= i < |s| ==> IsWordChar(s[i]) }

  predicate AllSpace(s: string) { forall i :: 0 <= i < |s| ==> IsSpace(s[i]) }

  /** `regex_replace(s, [^\w], "")`: the word characters of `s`, in order. */
  function RemoveNonWord(s: string): (r: string)
    ensures AllWordChars(r) && |r| <= |s|
    ensures AllWordChars(s) ==> r == s
  {
    if s == [] then []
    else if IsWordChar(s[0]) then [s[0]] + RemoveNonWord(s[1..])
    else RemoveNonWord(s[1..])
  }

  function TrimStart(s: string): (r: string)
    ensures |r| <= |s| && r == s[|s| - |r|..]
    ensures r == [] || !IsSpace(r[0])
    ensures AllSpace(s[..|s| - |r|])
  {
    if s != [] && IsSpace(s[0]) then
      var t := TrimStart(s[1..]);
      assert s[1..][..|s| - 1 - |t|] == s[1..|s| - |t|];
      t
    else s
  }

  function TrimEnd(s: string): (r: string)
    ensures |r| <= |s| && r == s[..|r|]
    ensures r == [] || !IsSpace(r[|r| - 1])
    ensures AllSpace(s[|r|..])
  {
    if s != [] && IsSpace(s[|s| - 1]) then
      var t := TrimEnd(s[..|s| - 1]);
      assert s[..|s| - 1][|t|..] == s[|t|..|s| - 1];
      t
    else s
  }

  /** `regex_replace(s, ^\s+|\s+$, "")`: leading and trailing white space
      removed. */
  function Trim(s: string): string
  {
    TrimEnd(TrimStart(s))
  }

  /** The trimmed text is empty exactly when the whole input is white space. */
  lemma TrimEmptyIff(s: string)
    ensures Trim(s) == [] <==> AllSpace(s)
  {
    var a := TrimStart(s);
    if Trim(s) == [] {
      assert a[0..] == a;
      assert a == [];
      assert s[..|s|] == s;
    } else {
      var r := Trim(s);
      assert !IsSpace(r[0]);
      assert r[0] == a[0];
      assert a[0] == s[|s| - |a|];
    }
  }
}
