/** Shared value types and list arithmetic used by the statistics and the
    backtest: numpy's NaN sentinel, Python's exceptions as an error value,
    and the sum, maximum, minimum and mean of a list of floats (as reals). */
module Numeric {

  datatype Option<T> = None | Some(value: T)

  /** A float result that may be numpy's "not a number" sentinel. */
  datatype Stat = NaN | Num(value: real)

  /** The exceptions the modelled code can raise. */
  datatype Error = ZeroDivision | UnknownSeriesType(name: string) | NoObjectsToConcatenate

  datatype Result<T> = Ok(value: T) | Err(error: Error)

  function Abs(x: real): (r: real)
    ensures r >= 0.0
    ensures r == x || r == -x
  {
    if x < 0.0 then -x else x
  }

  function Min(a: real, b: real): (r: real)
    ensures r <= a && r <= b
    ensures r == a || r == b
  {
    if a <= b then a else b
  }

  function Max(a: real, b: real): (r: real)
    ensures r >= a && r >= b
    ensures r == a || r == b
  {
    if a >= b then a else b
  }

  /** Python's `sum`, accumulated from the left as the source's loops do. */
  function Sum(s: seq<real>): real
  {
    if |s| == 0 then 0.0 else Sum(s[..|s| - 1]) + s[|s| - 1]
  }

  lemma {:induction false} SumConcat(a: seq<real>, b: seq<real>)
    ensures Sum(a + b) == Sum(a) + Sum(b)
    decreases |b|
  {
    if |b| == 0 {
      assert a + b == a;
    } else {
      var b' := b[..|b| - 1];
      assert (a + b)[..|a + b| - 1] == a + b';
      SumConcat(a, b');
    }
  }

  /** Python's `max` over a non-empty list: an element that bounds all others. */
  function MaxOf(s: seq<real>): (m: real)
    requires |s| > 0
    ensures m in s
    ensures forall i :: 0 <= i < |s| ==> s[i] <= m
  {
    if |s| == 1 then s[0] else Max(MaxOf(s[..|s| - 1]), s[|s| - 1])
  }

  /** Python's `min` over a non-empty list: an element bounded by all others. */
  function MinOf(s: seq<real>): (m: real)
    requires |s| > 0
    ensures m in s
    ensures forall i :: 0 <= i < |s| ==> m <= s[i]
  {
    if |s| == 1 then s[0] else Min(MinOf(s[..|s| - 1]), s[|s| - 1])
  }

  /** `np.mean`: NaN for an empty list, otherwise the arithmetic mean. */
  function Mean(s: seq<real>): (r: Stat)
    ensures r == NaN <==> |s| == 0
    ensures r.Num? ==> r.value * (|s| as real) == Sum(s)
  {
    if |s| == 0 then NaN else Num(Sum(s) / (|s| as real))
  }
}
