/** The running average of round trip times (rtt.go). */
module Rtt {

  // 10 rounds with 7 nodes
  const LENGTH := 70

  // Go's division of integers truncates toward zero.
  function TruncDiv(a: int, b: int): (q: int)
    requires b > 0
    ensures -b < a - b * q < b
  {
    if a >= 0 then a / b else -((-a) / b)
  }

  function Min(a: int, b: int): int {
    if a <= b then a else b
  }

  function Max(a: int, b: int): int {
    if a >= b then a else b
  }

  // The window of samples, the place of the oldest one, and the average.
  datatype Window = Window(times: seq<int>, idx: nat, avg: int) {
    predicate Valid() {
      |times| == LENGTH && idx < LENGTH && avg >= 0 && forall i :: 0 <= i < LENGTH ==> times[i] >= 0
    }
  }

  // A sample counts for at most twice the one it replaces.
  function Normal(old': int, t: int): int {
    if old' != 0 then Min(t, 2 * old') else t
  }

  function Add(w: Window, t: int): Window
    requires w.Valid()
  {
    var x := Normal(w.times[w.idx], t);
    Window(w.times[w.idx := x], (w.idx + 1) % LENGTH, Max(0, w.avg + TruncDiv(x - w.times[w.idx], LENGTH)))
  }

  function Empty(): (w: Window)
    ensures w.Valid()
  {
    Window(seq(LENGTH, _ => 0), 0, 0)
  }

  class Estimate {
    const times: array<int>
    var idx: nat
    var avg: int

    ghost predicate Valid()
      reads this, times
    {
      times.Length == LENGTH && Abs().Valid()
    }

    function Abs(): Window
      reads this, times
    {
      Window(times[..], idx, avg)
    }

    constructor ()
      ensures Valid() && fresh(times) && Abs() == Empty()
    {
      times := new int[LENGTH](_ => 0);
      idx, avg := 0, 0;
      new;
      assert times[..] == Empty().times;
    }

    method AddTime(t: int)
      requires Valid() && t >= 0
      modifies this, times
      ensures Valid() && Abs() == Add(old(Abs()), t)
    {
      var last := times[idx];
      var x := t;
      if last != 0 {
        x := Min(x, 2 * last);
      }
      avg := avg + TruncDiv(x - last, LENGTH);
      avg := Max(0, avg);
      times[idx] := x;
      idx := (idx + 1) % LENGTH;
    }
  }

  function Sum(s: seq<int>): int {
    if s == [] then 0 else Sum(s[..|s| - 1]) + s[|s| - 1]
  }

  lemma {:induction false} SumUpdate(s: seq<int>, i: nat, x: int)
    requires i < |s|
    ensures Sum(s[i := x]) == Sum(s) - s[i] + x
  {
    var u := s[i := x];
    if i == |s| - 1 {
      assert u[..|u| - 1] == s[..|s| - 1];
    } else {
      SumUpdate(s[..|s| - 1], i, x);
      assert u[..|u| - 1] == s[..|s| - 1][i := x];
    }
  }

  lemma {:induction false} SumIsNatural(s: seq<int>)
    requires forall i :: 0 <= i < |s| ==> s[i] >= 0
    ensures Sum(s) >= 0
  {
    if s != [] {
      SumIsNatural(s[..|s| - 1]);
    }
  }

  /** The recorded sample is the given one, cut to twice the one it replaces unless that is zero; no other changes. */
  lemma SampleIsRecorded(w: Window, t: int)
    requires w.Valid() && t >= 0
    ensures var old', x := w.times[w.idx], Add(w, t).times[w.idx];
      && x <= t && (old' != 0 ==> x <= 2 * old') && (x == t || (old' != 0 && x == 2 * old'))
    ensures forall i :: 0 <= i < LENGTH && i != w.idx ==> Add(w, t).times[i] == w.times[i]
    ensures Add(w, t).idx == if w.idx == LENGTH - 1 then 0 else w.idx + 1
  {
  }

  // How far the average is from the window, in units of the window's length.
  function Drift(w: Window): int
    requires w.Valid()
  {
    LENGTH * w.avg - Sum(w.times)
  }

  function Abs(x: int): nat {
    if x >= 0 then x else -x
  }

  // A call adds less than the length to the drift; the clamp at zero never adds any.
  lemma OneCallDrifts(w: Window, t: int)
    requires w.Valid() && t >= 0
    ensures Add(w, t).Valid()
    ensures Abs(Drift(Add(w, t))) <= Abs(Drift(w)) + 69
  {
    var x := Normal(w.times[w.idx], t);
    SumUpdate(w.times, w.idx, x);
    SumIsNatural(Add(w, t).times);
  }

  function AddAll(samples: seq<nat>): (w: Window)
    ensures w.Valid()
  {
    if samples == [] then Empty()
    else
      var w := AddAll(samples[..|samples| - 1]);
      OneCallDrifts(w, samples[|samples| - 1]);
      Add(w, samples[|samples| - 1])
  }

  lemma {:induction false} SumOfZeros(n: nat)
    ensures Sum(seq(n, _ => 0)) == 0
  {
    if n > 0 {
      SumOfZeros(n - 1);
      assert seq(n, _ => 0)[..n - 1] == seq(n - 1, _ => 0);
    }
  }

  /** After n samples, 70 times the average differs from the sum of the window by at most 69 n, in spite of the
      truncating division and of the clamp. */
  lemma {:induction false} DriftIsBounded(samples: seq<nat>)
    ensures Abs(LENGTH * AddAll(samples).avg - Sum(AddAll(samples).times)) <= 69 * |samples|
  {
    if samples == [] {
      SumOfZeros(LENGTH);
    } else {
      DriftIsBounded(samples[..|samples| - 1]);
      OneCallDrifts(AddAll(samples[..|samples| - 1]), samples[|samples| - 1]);
    }
  }
}
