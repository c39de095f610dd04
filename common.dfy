/** Values shared by every part of the pipeline model: the exceptions the
    Python code can raise, a failure-compatible result type, floats that may
    be NaN, and the few string operations the services use to name files. */
module Common {

  /** The Python exceptions the modelled code can raise. */
  datatype Error =
    | KeyError
    | ValueError
    | AssertionError
    | IndexError
    | TypeError
    | AttributeError
    | ZeroDivisionError
    | StopIteration

  /** A value, or the exception that was raised instead. */
  datatype Result<+T> = Success(value: T) | Failure(error: Error) {
    predicate IsFailure() { Failure? }

    function PropagateFailure<U>(): Result<U>
      requires Failure?
    {
      Failure(error)
    }

    function Extract(): T
      requires Success?
    {
      value
    }
  }

  /** A statement that either completes or raises. */
  datatype Outcome = Pass | Fail(error: Error) {
    predicate IsFailure() { Fail? }

    function PropagateFailure(): Outcome
      requires Fail?
    {
      this
    }
  }

  datatype Option<+T> = None | Some(value: T)

  /** An IEEE double as the pipeline uses it: a real number or NaN.
      Rounding is not modelled. */
  datatype Float = Num(val: real) | NaN

  /** `a <= b` on floats: false whenever either side is NaN. */
  predicate FloatLe(a: Float, b: Float) {
    a.Num? && b.Num? && a.val <= b.val
  }

  /** `a < b` on floats: false whenever either side is NaN. */
  predicate FloatLt(a: Float, b: Float) {
    a.Num? && b.Num? && a.val < b.val
  }

  function Abs(x: real): (r: real)
    ensures r >= 0.0 && (r == x || r == -x)
  {
    if x < 0.0 then -x else x
  }

  /** `d.get(k, default)` */
  function GetOr<K, V>(m: map<K, V>, k: K, default: V): V {
    if k in m then m[k] else default
  }

  predicate Distinct<T(==)>(s: seq<T>) {
    forall i, j :: 0 <= i < j < |s| ==> s[i] != s[j]
  }

  /** Number of positions of `s` holding `x`. */
  function Occurrences<T(==)>(s: seq<T>, x: T): (r: nat)
    ensures r <= |s|
    ensures r == 0 <==> x !in s
  {
    if s == [] then 0 else (if s[0] == x then 1 else 0) + Occurrences(s[1..], x)
  }

  lemma {:induction false} OccurrencesAppend<T>(s: seq<T>, y: T, x: T)
    ensures Occurrences(s + [y], x) == Occurrences(s, x) + (if y == x then 1 else 0)
  {
    if s == [] {
      assert s + [y] == [y];
    } else {
      assert (s + [y])[1..] == s[1..] + [y];
      OccurrencesAppend(s[1..], y, x);
    }
  }

  /** The elements of a set, each once, in the order a loop over the set
      visits them; that order is left open. */
  method Enumerate<T>(s: set<T>) returns (order: seq<T>)
    ensures Distinct(order) && |order| == |s|
    ensures forall x :: x in s <==> x in order
  {
    order := [];
    var rest := s;
    while rest != {}
      invariant Distinct(order) && |order| + |rest| == |s|
      invariant forall x :: x in s <==> x in rest || x in order
      invariant forall x :: x in rest ==> x !in order
      decreases |rest|
    {
      var x :| x in rest;
      order := order + [x];
      rest := rest - {x};
    }
  }

  /** Position of the first `x` in `s`, as `list.index` finds it. */
  function IndexOf<T(==)>(s: seq<T>, x: T): (r: Option<nat>)
    ensures r.None? <==> x !in s
    ensures r.Some? ==> r.value < |s| && s[r.value] == x && x !in s[..r.value]
  {
    if s == [] then None
    else if s[0] == x then Some(0)
    else
      match IndexOf(s[1..], x)
      case None => None
      case Some(i) =>
        assert s[..i + 1] == [s[0]] + s[1..][..i];
        Some(i + 1)
  }

  /** `s.startswith(p)` */
  predicate StartsWith(s: string, p: string) {
    |p| <= |s| && s[..|p|] == p
  }

  /** `s.endswith(p)` */
  predicate EndsWith(s: string, p: string) {
    |p| <= |s| && s[|s| - |p|..] == p
  }

  /** `p` occurs in `s` starting at position `i`. */
  predicate OccursAt(s: string, p: string, i: int) {
    0 <= i && i + |p| <= |s| && s[i..i + |p|] == p
  }

  /** Python's `p in s` for strings: `p` occurs as a contiguous part of `s`. */
  predicate Contains(s: string, p: string) {
    exists i :: 0 <= i <= |s| - |p| && OccursAt(s, p, i)
  }

  /** `os.path.join(a, b)` for two components (posixpath). */
  function PathJoin(a: string, b: string): (r: string)
    ensures StartsWith(b, "/") ==> r == b
    ensures !StartsWith(b, "/") ==> EndsWith(r, b) && StartsWith(r, a)
  {
    if StartsWith(b, "/") then b
    else if a == [] || EndsWith(a, "/") then a + b
    else a + "/" + b
  }

  function DigitChar(d: nat): char
    requires d < 10
  {
    "0123456789"[d]
  }

  /** `str(n)` for a natural number. */
  function NatToString(n: nat): (r: string)
    ensures |r| >= 1
    ensures forall k :: 0 <= k < |r| ==> '0' <= r[k] <= '9'
    ensures n < 10 <==> |r| == 1
  {
    if n < 10 then [DigitChar(n)] else NatToString(n / 10) + [DigitChar(n % 10)]
  }

  /** `str(i)` for an integer. */
  function IntToString(i: int): (r: string)
    ensures |r| >= 1 && '0' <= r[|r| - 1] <= '9'
    ensures r[0] == '-' <==> i < 0
  {
    if i < 0 then "-" + NatToString(-i) else NatToString(i)
  }

  /** `f'{n:02d}'`: at least two digits, padded with a leading zero. */
  function ZeroPad2(n: nat): (r: string)
    ensures |r| >= 2
  {
    if n < 10 then "0" + NatToString(n) else NatToString(n)
  }

  /** An ASCII digit `0`-`9`; `\d` in the file-name patterns is read this way. */
  predicate IsDigit(c: char) {
    '0' <= c <= '9'
  }

  /** `re.match(prefix + r'\d{3}.csv', name)`: from the start, `prefix`,
      three digits, any character but a newline (the dot is not escaped),
      then `csv`; anything may follow. */
  predicate MatchesNumberedCsv(prefix: string, name: string) {
    var n := |prefix|;
    |name| >= n + 7 && name[..n] == prefix &&
    IsDigit(name[n]) && IsDigit(name[n + 1]) && IsDigit(name[n + 2]) &&
    name[n + 3] != '\n' && name[n + 4..n + 7] == "csv"
  }

  /** `s.split(sep)` on a single-character separator. */
  function Split(s: string, sep: char): (r: seq<string>)
    ensures |r| >= 1
    ensures forall k :: 0 <= k < |r| ==> sep !in r[k]
    decreases |s|
  {
    if s == [] then [""]
    else
      var rest := Split(s[1..], sep);
      if s[0] == sep then [""] + rest else [[s[0]] + rest[0]] + rest[1..]
  }

  lemma {:induction false} SplitNoSeparator(s: string, sep: char)
    requires sep !in s
    ensures Split(s, sep) == [s]
    decreases |s|
  {
    if s != [] {
      SplitNoSeparator(s[1..], sep);
      assert [s[0]] + s[1..] == s;
    }
  }

  lemma {:induction false} SplitJoin(a: string, sep: char, b: string)
    requires sep !in a
    ensures Split(a + [sep] + b, sep) == [a] + Split(b, sep)
    decreases |a|
  {
    if a == [] {
      assert a + [sep] + b == [sep] + b;
      assert ([sep] + b)[1..] == b;
    } else {
      assert (a + [sep] + b)[1..] == a[1..] + [sep] + b;
      SplitJoin(a[1..], sep, b);
      assert [a[0]] + a[1..] == a;
    }
  }
}
