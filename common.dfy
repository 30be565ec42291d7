/** Values shared by both recommenders: optional values, numpy floats with
    their infinities and NaN, clipping, Python slicing and sums of reals. */
module Common {

  datatype Option<+T> = None | Some(value: T)

  /** A numpy float64: a finite value, one of the two infinities, or NaN. */
  datatype Float = Num(r: real) | PosInf | NegInf | NaN

  /** `np.clip(x, lo, hi)` on a float: NaN stays NaN, everything else lands in [lo, hi]. */
  function Clip(x: Float, lo: real, hi: real): (y: Float)
    requires lo <= hi
    ensures y.NaN? <==> x.NaN?
    ensures !x.NaN? ==> y.Num? && lo <= y.r <= hi
    ensures x.Num? && lo <= x.r <= hi ==> y == x
    ensures x.NegInf? ==> y == Num(lo)
    ensures x.PosInf? ==> y == Num(hi)
  {
    match x
    case NaN => NaN
    case NegInf => Num(lo)
    case PosInf => Num(hi)
    case Num(v) => Num(if v < lo then lo else if v > hi then hi else v)
  }

  /** `np.clip` on a finite value. */
  function ClipReal(x: real, lo: real, hi: real): (y: real)
    requires lo <= hi
    ensures lo <= y <= hi
    ensures lo <= x <= hi ==> y == x
    ensures x < lo ==> y == lo
    ensures x > hi ==> y == hi
  {
    if x < lo then lo else if x > hi then hi else x
  }

  /** Where a Python slice bound `i` lands in a sequence of length `n`. */
  function SliceBound(i: int, n: nat): (b: nat)
    ensures b <= n
    ensures 0 <= i <= n ==> b == i
    ensures i < 0 && 0 <= n + i ==> b == n + i
  {
    if i < 0 then (if i + n < 0 then 0 else i + n) else if i > n then n else i
  }

  /** Python's `s[i:j]`, negative bounds counting from the end. */
  function PySlice<T>(s: seq<T>, i: int, j: int): (r: seq<T>)
    ensures |r| <= |s|
    ensures 0 <= i <= j <= |s| ==> r == s[i..j]
  {
    var a := SliceBound(i, |s|);
    var b := SliceBound(j, |s|);
    if a <= b then s[a..b] else []
  }

  /** Sum of a sequence of reals, peeling the last element (the order a loop adds them). */
  function Sum(s: seq<real>): real
  {
    if s == [] then 0.0 else Sum(s[..|s| - 1]) + s[|s| - 1]
  }

  /** Flatten a sequence of sequences, keeping their order. */
  function Concat<T>(ss: seq<seq<T>>): seq<T>
  {
    if ss == [] then [] else Concat(ss[..|ss| - 1]) + ss[|ss| - 1]
  }

  /** Number of occurrences of `x` in `s`. */
  function Count<T(==)>(s: seq<T>, x: T): nat
  {
    if s == [] then 0 else Count(s[..|s| - 1], x) + (if s[|s| - 1] == x then 1 else 0)
  }

  lemma {:induction false} CountZero<T>(s: seq<T>, x: T)
    ensures Count(s, x) == 0 <==> x !in s
  {
    if s != [] {
      CountZero(s[..|s| - 1], x);
      assert s == s[..|s| - 1] + [s[|s| - 1]];
    }
  }

  /** An element of the flattening comes from one of the parts, and each part's elements are in it. */
  lemma {:induction false} InConcat<T>(ss: seq<seq<T>>, x: T)
    ensures x in Concat(ss) <==> exists i :: 0 <= i < |ss| && x in ss[i]
  {
    if ss != [] {
      var init := ss[..|ss| - 1];
      InConcat(init, x);
      if x in Concat(ss) && x !in Concat(init) {
        assert x in ss[|ss| - 1];
      }
      if exists i :: 0 <= i < |ss| && x in ss[i] {
        var i :| 0 <= i < |ss| && x in ss[i];
        if i < |ss| - 1 {
          assert x in init[i];
        }
      }
    }
  }

  /** Position of the first `x` in `s`, or `|s|` when there is none. */
  function IndexOf<T(==)>(s: seq<T>, x: T): (k: nat)
    ensures k <= |s|
    ensures k < |s| ==> s[k] == x
    ensures forall i :: 0 <= i < k ==> s[i] != x
    ensures k == |s| <==> x !in s
  {
    if s == [] then 0 else if s[0] == x then 0 else 1 + IndexOf(s[1..], x)
  }

  predicate Distinct<T(==)>(s: seq<T>)
  {
    forall i, j :: 0 <= i < j < |s| ==> s[i] != s[j]
  }
}
