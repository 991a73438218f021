/** The accumulator loops over a buffer of reals: largest element, mean,
    mean square, and the in-place removal of the mean (DC component).
    Each works on the first num elements of an array, as the program's
    (pointer, count) pairs do. */
module Reductions {

  /** Sum of a sequence, accumulated left to right as the loops do. */
  function Sum(s: seq<real>): real {
    if s == [] then 0.0 else Sum(s[..|s| - 1]) + s[|s| - 1]
  }

  /** Sum of the squares of a sequence, accumulated left to right. */
  function SumOfSquares(s: seq<real>): real {
    if s == [] then 0.0 else SumOfSquares(s[..|s| - 1]) + s[|s| - 1] * s[|s| - 1]
  }

  /** Arithmetic mean of a non-empty sequence. */
  function Mean(s: seq<real>): real
    requires |s| > 0
  {
    Sum(s) / (|s| as real)
  }

  /** Every element moved down by the same amount c. */
  function Shifted(s: seq<real>, c: real): seq<real> {
    seq(|s|, i requires 0 <= i < |s| => s[i] - c)
  }

  /** The largest element of a non-empty sequence. */
  function Max(s: seq<real>): (m: real)
    requires |s| > 0
    ensures m in s
    ensures forall i :: 0 <= i < |s| ==> s[i] <= m
  {
    if |s| == 1 then s[0]
    else
      var m' := Max(s[..|s| - 1]);
      assert forall i :: 0 <= i < |s| - 1 ==> s[i] == s[..|s| - 1][i];
      if s[|s| - 1] > m' then s[|s| - 1] else m'
  }

  /** max_of: the largest of data[0..num). */
  method MaxOf(data: array<real>, num: int) returns (m: real)
    requires 1 <= num <= data.Length
    ensures m in data[..num]
    ensures forall i :: 0 <= i < num ==> data[i] <= m
  {
    m := data[0];
    var i := 1;
    while i < num
      invariant 1 <= i <= num
      invariant m in data[..i]
      invariant forall k :: 0 <= k < i ==> data[k] <= m
    {
      if data[i] > m {
        m := data[i];
      }
      assert data[..i + 1] == data[..i] + [data[i]];
      i := i + 1;
    }
  }

  /** avg_of: the mean of data[0..num). */
  method AvgOf(data: array<real>, num: int) returns (avg: real)
    requires 1 <= num <= data.Length
    ensures avg == Mean(data[..num])
  {
    var s := 0.0;
    var i := 0;
    while i < num
      invariant 0 <= i <= num
      invariant s == Sum(data[..i])
    {
      assert data[..i + 1][..i] == data[..i];
      s := s + data[i];
      i := i + 1;
    }
    avg := s / (num as real);
  }

  /** avg_power: the mean square of data[0..num). */
  method AvgPower(data: array<real>, num: int) returns (power: real)
    requires 1 <= num <= data.Length
    ensures power == SumOfSquares(data[..num]) / (num as real)
    ensures power >= 0.0
  {
    var ss := 0.0;
    var i := 0;
    while i < num
      invariant 0 <= i <= num
      invariant ss == SumOfSquares(data[..i])
    {
      assert data[..i + 1][..i] == data[..i];
      ss := ss + data[i] * data[i];
      i := i + 1;
    }
    SumOfSquaresNonnegative(data[..num]);
    power := ss / (num as real);
  }

  /** remove_dc: subtract the mean of data[0..num) from each of those
      elements, in place. With num == 0 there is no element to change. */
  method RemoveDc(data: array<real>, num: int)
    requires 0 <= num <= data.Length
    modifies data
    ensures num > 0 ==> data[..num] == Shifted(old(data[..num]), Mean(old(data[..num])))
    ensures num == 0 ==> data[..] == old(data[..])
    ensures data[num..] == old(data[num..])
  {
    if num > 0 {
      var dc := AvgOf(data, num);
      var i := 0;
      while i < num
        invariant 0 <= i <= num
        invariant forall k :: 0 <= k < i ==> data[k] == old(data[k]) - dc
        invariant forall k :: i <= k < data.Length ==> data[k] == old(data[k])
      {
        data[i] := data[i] - dc;
        i := i + 1;
      }
    }
  }

  /** Shifting every element by c shifts the sum by |s| * c. */
  lemma {:induction false} SumShifted(s: seq<real>, c: real)
    ensures Sum(Shifted(s, c)) == Sum(s) - (|s| as real) * c
    decreases |s|
  {
    if s != [] {
      var n := |s|;
      assert Shifted(s, c)[..n - 1] == Shifted(s[..n - 1], c);
      SumShifted(s[..n - 1], c);
    }
  }

  /** After DC removal the samples sum, hence average, to zero. */
  lemma DcRemovedSumsToZero(s: seq<real>)
    requires |s| > 0
    ensures Sum(Shifted(s, Mean(s))) == 0.0
    ensures Mean(Shifted(s, Mean(s))) == 0.0
  {
    var n, m := |s| as real, Mean(s);
    SumShifted(s, m);
    assert m == Sum(s) / n;
    assert n * m == Sum(s);
  }

  /** Removing the DC component twice is the same as removing it once. */
  lemma RemoveDcIdempotent(s: seq<real>)
    requires |s| > 0
    ensures Shifted(Shifted(s, Mean(s)), Mean(Shifted(s, Mean(s)))) == Shifted(s, Mean(s))
  {
    DcRemovedSumsToZero(s);
  }

  /** A mean square is never negative. */
  lemma {:induction false} SumOfSquaresNonnegative(s: seq<real>)
    ensures SumOfSquares(s) >= 0.0
    decreases |s|
  {
    if s != [] {
      SumOfSquaresNonnegative(s[..|s| - 1]);
    }
  }

  /** The mean never exceeds the largest element. */
  lemma MeanAtMostMax(s: seq<real>)
    requires |s| > 0
    ensures Mean(s) <= Max(s)
  {
    MeanAtMostBound(s, Max(s));
  }

  /** The mean never exceeds a bound on every element. */
  lemma MeanAtMostBound(s: seq<real>, m: real)
    requires |s| > 0
    requires forall i :: 0 <= i < |s| ==> s[i] <= m
    ensures Mean(s) <= m
  {
    SumAtMostBound(s, m);
    QuotientAtMost(Sum(s), |s| as real, m);
  }

  lemma QuotientAtMost(a: real, n: real, m: real)
    requires n > 0.0 && a <= n * m
    ensures a / n <= m
  {
  }

  lemma {:induction false} SumAtMostBound(s: seq<real>, m: real)
    requires forall i :: 0 <= i < |s| ==> s[i] <= m
    ensures Sum(s) <= (|s| as real) * m
    decreases |s|
  {
    if s != [] {
      SumAtMostBound(s[..|s| - 1], m);
    }
  }

  /** For a single element the largest element and the mean are that element. */
  lemma SingletonMeanMax(x: real)
    ensures Max([x]) == x && Mean([x]) == x
  {
    assert Sum([x]) == Sum([]) + x;
  }

  /** The worked aggregation example [1, 4, 9]: max 9, mean 14/3. */
  lemma AggregationExample()
    ensures Max([1.0, 4.0, 9.0]) == 9.0
    ensures Mean([1.0, 4.0, 9.0]) == 14.0 / 3.0
  {
    var s := [1.0, 4.0, 9.0];
    assert s[..2] == [1.0, 4.0] && s[..2][..1] == [1.0] && [1.0][..0] == [];
    assert Sum([1.0]) == 1.0;
    assert Sum([1.0, 4.0]) == 5.0;
    assert Sum(s) == 14.0;
  }
}
