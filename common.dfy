/** Value types shared by the dashboard's components. */
module Common {

  datatype Option<T> = None | Some(value: T)

  /** The outcome of a request whose HTTP status the caller checks: a 2xx response with a
      parsed body, a non-2xx response, or a thrown error (network failure or a body that is
      not valid JSON). */
  datatype Fetch<T> = Ok(payload: T) | NotOk | Thrown

  /** The outcome of a request whose HTTP status the caller does not check: the parsed body
      of whatever response arrived, or a thrown error (network failure or a body that is not
      valid JSON, or a field read on a body that has none). */
  datatype Settled<T> = Parsed(body: T) | Failed

  /** The three colours the widgets grade a figure with. */
  datatype Tone = Red | Yellow | Green

  /** A navigation a component asks the router for. */
  datatype Navigation = Navigate(path: string, replace: bool)

  /** A JavaScript value read from a JSON field that holds a number: null, absent, or a number. */
  datatype JsNumber = Null | Undefined | Num(value: real) {
    /** JavaScript truthiness: null, undefined and 0 are falsy. */
    predicate Truthy() { Num? && value != 0.0 }
  }

  /** The result of a JavaScript number division: a finite number, or what IEEE 754 gives for
      a division by zero. */
  datatype Ratio = Finite(value: real) | PosInfinity | NegInfinity | NaN

  /** `a / b` in JavaScript. */
  function Divide(a: real, b: real): (r: Ratio)
    ensures r.Finite? <==> b != 0.0
    ensures r.Finite? ==> r.value * b == a
    ensures r == NaN <==> a == 0.0 && b == 0.0
    ensures r == PosInfinity <==> b == 0.0 && a > 0.0
  {
    if b != 0.0 then Finite(a / b)
    else if a > 0.0 then PosInfinity
    else if a < 0.0 then NegInfinity
    else NaN
  }

  /** `r * k` for a positive constant `k`. */
  function Scale(r: Ratio, k: real): (s: Ratio)
    requires k > 0.0
    ensures s.Finite? <==> r.Finite?
    ensures s.Finite? ==> s.value == r.value * k
    ensures !r.Finite? ==> s == r
  {
    match r
    case Finite(v) => Finite(v * k)
    case _ => r
  }

  /** `a + b` in JavaScript. */
  function Add(a: Ratio, b: Ratio): (s: Ratio)
    ensures a.Finite? && b.Finite? ==> s == Finite(a.value + b.value)
    ensures a == NaN || b == NaN ==> s == NaN
    ensures (a == PosInfinity && b == NegInfinity) || (a == NegInfinity && b == PosInfinity) ==> s == NaN
  {
    match (a, b)
    case (Finite(x), Finite(y)) => Finite(x + y)
    case (NaN, _) => NaN
    case (_, NaN) => NaN
    case (PosInfinity, NegInfinity) => NaN
    case (NegInfinity, PosInfinity) => NaN
    case (PosInfinity, _) => PosInfinity
    case (_, PosInfinity) => PosInfinity
    case (NegInfinity, _) => NegInfinity
    case (_, NegInfinity) => NegInfinity
  }

  /** `r >= t` in JavaScript: false for NaN. */
  predicate AtLeast(r: Ratio, t: real) {
    match r
    case Finite(v) => v >= t
    case PosInfinity => true
    case NegInfinity => false
    case NaN => false
  }

  /** `Math.min(r, cap)` in JavaScript: NaN if `r` is NaN. */
  function MinWith(r: Ratio, cap: real): (m: Ratio)
    ensures r != NaN ==> m.Finite? || m == NegInfinity
    ensures m.Finite? ==> m.value <= cap && (m.value == cap || r == m)
    ensures AtLeast(r, cap) ==> m == Finite(cap)
  {
    match r
    case Finite(v) => if v < cap then r else Finite(cap)
    case PosInfinity => Finite(cap)
    case NegInfinity => NegInfinity
    case NaN => NaN
  }

  function Min(a: real, b: real): real { if a <= b then a else b }

  function Max(a: real, b: real): real { if a >= b then a else b }

  /** `xs.filter(keep)`: the elements `keep` accepts, in their order. */
  function Filter<T(!new)>(xs: seq<T>, keep: T -> bool): (r: seq<T>)
    ensures |r| <= |xs|
    ensures forall x :: x in r <==> x in xs && keep(x)
  {
    if xs == [] then []
    else Filter(xs[..|xs| - 1], keep) + (if keep(xs[|xs| - 1]) then [xs[|xs| - 1]] else [])
  }

  /** Filtering works piece by piece, so it keeps the order of what it keeps. */
  lemma {:induction false} FilterAppend<T(!new)>(a: seq<T>, b: seq<T>, keep: T -> bool)
    ensures Filter(a + b, keep) == Filter(a, keep) + Filter(b, keep)
    decreases |b|
  {
    if b == [] {
      assert a + b == a;
    } else {
      var b' := b[..|b| - 1];
      assert (a + b)[..|a + b| - 1] == a + b';
      FilterAppend(a, b', keep);
    }
  }

  /** A filter that rejects nothing changes nothing. */
  lemma {:induction false} FilterKeepsAll<T(!new)>(xs: seq<T>, keep: T -> bool)
    requires forall i :: 0 <= i < |xs| ==> keep(xs[i])
    ensures Filter(xs, keep) == xs
  {
    if xs != [] {
      FilterKeepsAll(xs[..|xs| - 1], keep);
    }
  }

  /** Filtering twice with the same test is filtering once. */
  lemma {:induction false} FilterIdempotent<T(!new)>(xs: seq<T>, keep: T -> bool)
    ensures Filter(Filter(xs, keep), keep) == Filter(xs, keep)
  {
    var r := Filter(xs, keep);
    assert forall i :: 0 <= i < |r| ==> r[i] in r;
    FilterKeepsAll(r, keep);
  }

  /** For a positive `limit`, comparing `v` with `t` is comparing `v * limit` with `t * limit`. */
  lemma CompareScaled(v: real, limit: real, p: real, t: real)
    requires limit > 0.0 && v * limit == p
    ensures v >= t <==> p >= t * limit
  {
    if v >= t {
      assert (v - t) * limit >= 0.0;
    } else {
      assert (t - v) * limit > 0.0;
    }
  }
}
