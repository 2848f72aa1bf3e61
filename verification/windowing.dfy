/**
 * The window generator of the fog node: a (channels × samples) signal is cut
 * into fixed-length windows that start at offset 0 and advance by a fixed
 * step; the trailing partial window is dropped.
 */
module Windowing {
  import opened Base

  /** The array given to the generator: a 2-D (channels × samples) matrix, or an array of another rank. */
  datatype Signal =
    | Matrix(rows: seq<seq<real>>, samples: nat)
    | OtherRank(ndim: nat)

  /** What numpy guarantees of an array: a matrix is rectangular, and "another rank" is not 2. */
  predicate WellFormed(signal: Signal) {
    match signal
    case Matrix(rows, n) => forall c :: 0 <= c < |rows| ==> |rows[c]| == n
    case OtherRank(d) => d != 2
  }

  /** One window: every channel of the signal, restricted to a span of samples. */
  type Window = seq<seq<real>>

  const ShapeMessage := "Signal must have shape (n_channels, n_samples)"
  const OverlapMessage := "Overlap must be smaller than window duration"

  /** A duration in seconds converted to samples as `int(seconds * sfreq)` does. */
  function SampleCount(seconds: real, sfreq: int): int {
    Trunc(seconds * sfreq as real)
  }

  /** The window length and the step between window starts, both in samples. */
  datatype Plan = Plan(windowSamples: int, stepSamples: int)

  /** The checks made before the first window: the rank, then a positive step. */
  function MakePlan(signal: Signal, sfreq: int, windowSeconds: real, overlapSeconds: real): (r: Result<Plan>)
    ensures signal.OtherRank? ==> r == Err(ValueError(ShapeMessage))
    ensures signal.Matrix? ==>
      (r.Ok? <==> SampleCount(overlapSeconds, sfreq) < SampleCount(windowSeconds, sfreq))
    ensures r.Err? && signal.Matrix? ==> r.error == ValueError(OverlapMessage)
    ensures r.Ok? ==> r.value.stepSamples > 0
    ensures r.Ok? ==> r.value.windowSamples == SampleCount(windowSeconds, sfreq)
    ensures r.Ok? ==> r.value.windowSamples - r.value.stepSamples == SampleCount(overlapSeconds, sfreq)
  {
    if signal.OtherRank? then Err(ValueError(ShapeMessage))
    else
      var windowSamples := SampleCount(windowSeconds, sfreq);
      var step := windowSamples - SampleCount(overlapSeconds, sfreq);
      if step <= 0 then Err(ValueError(OverlapMessage)) else Ok(Plan(windowSamples, step))
  }

  /** Python's `i` clamped for a slice of a sequence of length `n` (negative counts from the end). */
  function SliceBound(i: int, n: nat): (r: nat)
    ensures r <= n
    ensures 0 <= i <= n ==> r == i
  {
    if i < 0 then (if i + n < 0 then 0 else i + n) else if i > n then n else i
  }

  /** Python's `s[lo:hi]`. */
  function PySlice(s: seq<real>, lo: int, hi: int): seq<real> {
    var a := SliceBound(lo, |s|);
    var b := SliceBound(hi, |s|);
    if a <= b then s[a..b] else []
  }

  /** numpy's `signal[:, lo:hi]`: the same span of every channel. */
  function ColumnSlice(rows: seq<seq<real>>, lo: int, hi: int): (w: Window)
    ensures |w| == |rows|
  {
    seq(|rows|, c requires 0 <= c < |rows| => PySlice(rows[c], lo, hi))
  }

  /** The start offsets the generator's loop visits from `start` on: advance by `step` while a window fits. */
  function Starts(start: int, windowSamples: int, n: int, step: int): seq<int>
    requires step > 0
    decreases n - windowSamples - start + step
  {
    if start + windowSamples <= n then [start] + Starts(start + step, windowSamples, n, step) else []
  }

  /** The windows cut at the given start offsets. */
  function Slices(rows: seq<seq<real>>, starts: seq<int>, windowSamples: int): (ws: seq<Window>)
    ensures |ws| == |starts|
  {
    seq(|starts|, k requires 0 <= k < |starts| => ColumnSlice(rows, starts[k], starts[k] + windowSamples))
  }

  /** Everything the generator yields, or the error it raises before the first window. */
  function Windows(signal: Signal, sfreq: int, windowSeconds: real, overlapSeconds: real): (r: Result<seq<Window>>)
    ensures r.Ok? <==> MakePlan(signal, sfreq, windowSeconds, overlapSeconds).Ok?
    ensures r.Err? ==> r.error == MakePlan(signal, sfreq, windowSeconds, overlapSeconds).error
  {
    var plan :- MakePlan(signal, sfreq, windowSeconds, overlapSeconds);
    Ok(Slices(signal.rows, Starts(0, plan.windowSamples, signal.samples, plan.stepSamples), plan.windowSamples))
  }

  /** The number of whole windows of `windowSamples` samples, `step` apart, in `n` samples. */
  function WindowCount(n: int, windowSamples: int, step: int): nat
    requires step > 0
  {
    if windowSamples <= n then (n - windowSamples) / step + 1 else 0
  }

  /**
   * `generate_windows`: the while loop that advances `start` by the step and
   * yields `signal[:, start:start + window_samples]` while the window fits.
   * The generator's yields are collected into a sequence.
   */
  method GenerateWindows(signal: Signal, sfreq: int, windowSeconds: real, overlapSeconds: real)
    returns (r: Result<seq<Window>>)
    ensures r == Windows(signal, sfreq, windowSeconds, overlapSeconds)
  {
    if signal.OtherRank? {
      return Err(ValueError(ShapeMessage));
    }
    var n := signal.samples;
    var windowSamples := Trunc(windowSeconds * sfreq as real);
    var overlapSamples := Trunc(overlapSeconds * sfreq as real);
    var step := windowSamples - overlapSamples;
    if step <= 0 {
      return Err(ValueError(OverlapMessage));
    }
    var start := 0;
    var windows: seq<Window> := [];
    ghost var visited: seq<int> := [];
    while start + windowSamples <= n
      invariant visited + Starts(start, windowSamples, n, step) == Starts(0, windowSamples, n, step)
      invariant windows == Slices(signal.rows, visited, windowSamples)
      decreases n - windowSamples - start + step
    {
      windows := windows + [ColumnSlice(signal.rows, start, start + windowSamples)];
      visited := visited + [start];
      start := start + step;
    }
    assert visited == Starts(0, windowSamples, n, step);
    assert MakePlan(signal, sfreq, windowSeconds, overlapSeconds) == Ok(Plan(windowSamples, step));
    return Ok(windows);
  }

  lemma MulNonNegative(a: int, b: int)
    requires a >= 0 && b >= 0
    ensures a * b >= 0
  {
  }

  /** Euclidean division has one quotient. */
  lemma DivUnique(x: int, d: int, q: int, m: int)
    requires d > 0 && 0 <= m < d && x == d * q + m
    ensures x / d == q
  {
    var q', m' := x / d, x % d;
    assert x == d * q' + m';
    if q' > q {
      MulNonNegative(d, q' - q - 1);
    } else if q' < q {
      MulNonNegative(d, q - q' - 1);
    }
  }

  lemma DivStep(x: int, step: int)
    requires step > 0 && x >= step
    ensures x / step == (x - step) / step + 1
  {
    var q, m := (x - step) / step, (x - step) % step;
    assert x - step == step * q + m;
    assert x == step * (q + 1) + m;
    DivUnique(x, step, q + 1, m);
  }

  /** Window k of the loop started at `start` begins at `start + k * step`, and there are WindowCount of them. */
  lemma {:induction false} StartsClosedForm(start: int, windowSamples: int, n: int, step: int)
    requires step > 0
    ensures |Starts(start, windowSamples, n, step)| == WindowCount(n - start, windowSamples, step)
    ensures forall k :: 0 <= k < |Starts(start, windowSamples, n, step)| ==>
      Starts(start, windowSamples, n, step)[k] == start + k * step
    decreases n - windowSamples - start + step
  {
    if start + windowSamples <= n {
      var rest := Starts(start + step, windowSamples, n, step);
      StartsClosedForm(start + step, windowSamples, n, step);
      var x := n - start - windowSamples;
      if x >= step {
        DivStep(x, step);
      }
      forall k | 1 <= k < |rest| + 1
        ensures Starts(start, windowSamples, n, step)[k] == start + k * step
      {
        assert Starts(start, windowSamples, n, step)[k] == rest[k - 1];
        assert (k - 1) * step + step == k * step;
      }
    }
  }

  /** The number of windows is (n - window) / step + 1 when the signal holds one window, else 0. */
  lemma WindowsCount(signal: Signal, sfreq: int, windowSeconds: real, overlapSeconds: real)
    requires Windows(signal, sfreq, windowSeconds, overlapSeconds).Ok?
    ensures var plan := MakePlan(signal, sfreq, windowSeconds, overlapSeconds).value;
      |Windows(signal, sfreq, windowSeconds, overlapSeconds).value|
        == WindowCount(signal.samples, plan.windowSamples, plan.stepSamples)
  {
    var plan := MakePlan(signal, sfreq, windowSeconds, overlapSeconds).value;
    StartsClosedForm(0, plan.windowSamples, signal.samples, plan.stepSamples);
  }

  /**
   * Window k is `signal[:, k*step : k*step + window]`; it lies inside the
   * signal, and the start one step after the last window would not fit
   * (the trailing partial window is dropped).
   */
  lemma WindowAt(signal: Signal, sfreq: int, windowSeconds: real, overlapSeconds: real, k: nat)
    requires Windows(signal, sfreq, windowSeconds, overlapSeconds).Ok?
    requires k < |Windows(signal, sfreq, windowSeconds, overlapSeconds).value|
    ensures var plan := MakePlan(signal, sfreq, windowSeconds, overlapSeconds).value;
      var start := k * plan.stepSamples;
      && Windows(signal, sfreq, windowSeconds, overlapSeconds).value[k]
           == ColumnSlice(signal.rows, start, start + plan.windowSamples)
      && 0 <= start && start + plan.windowSamples <= signal.samples
  {
    var plan := MakePlan(signal, sfreq, windowSeconds, overlapSeconds).value;
    StartsClosedForm(0, plan.windowSamples, signal.samples, plan.stepSamples);
    var starts := Starts(0, plan.windowSamples, signal.samples, plan.stepSamples);
    StartsFit(0, plan.windowSamples, signal.samples, plan.stepSamples, k);
  }

  lemma {:induction false} StartsFit(start: int, windowSamples: int, n: int, step: int, k: nat)
    requires step > 0
    requires k < |Starts(start, windowSamples, n, step)|
    ensures Starts(start, windowSamples, n, step)[k] + windowSamples <= n
    ensures Starts(start, windowSamples, n, step)[k] >= start
    decreases n - windowSamples - start + step
  {
    if k > 0 {
      StartsFit(start + step, windowSamples, n, step, k - 1);
    }
  }

  /** After the last whole window the next start would run past the end of the signal. */
  lemma TrailingWindowDropped(signal: Signal, sfreq: int, windowSeconds: real, overlapSeconds: real)
    requires Windows(signal, sfreq, windowSeconds, overlapSeconds).Ok?
    ensures var plan := MakePlan(signal, sfreq, windowSeconds, overlapSeconds).value;
      |Windows(signal, sfreq, windowSeconds, overlapSeconds).value| * plan.stepSamples + plan.windowSamples
        > signal.samples
  {
    var plan := MakePlan(signal, sfreq, windowSeconds, overlapSeconds).value;
    StartsEnd(0, plan.windowSamples, signal.samples, plan.stepSamples);
  }

  lemma {:induction false} StartsEnd(start: int, windowSamples: int, n: int, step: int)
    requires step > 0
    ensures start + |Starts(start, windowSamples, n, step)| * step + windowSamples > n
    decreases n - windowSamples - start + step
  {
    if start + windowSamples <= n {
      var m := |Starts(start + step, windowSamples, n, step)|;
      StartsEnd(start + step, windowSamples, n, step);
      assert start + (m + 1) * step == start + step + m * step;
    }
  }

  /** Window starts strictly increase. */
  lemma StartsIncrease(start: int, windowSamples: int, n: int, step: int, i: nat, j: nat)
    requires step > 0
    requires i < j < |Starts(start, windowSamples, n, step)|
    ensures Starts(start, windowSamples, n, step)[i] < Starts(start, windowSamples, n, step)[j]
  {
    StartsClosedForm(start, windowSamples, n, step);
    assert i * step < j * step;
  }

  /** With a non-negative length each window keeps every channel and exactly `window` consecutive samples of it. */
  lemma WindowContents(signal: Signal, sfreq: int, windowSeconds: real, overlapSeconds: real, k: nat, c: nat)
    requires WellFormed(signal)
    requires Windows(signal, sfreq, windowSeconds, overlapSeconds).Ok?
    requires k < |Windows(signal, sfreq, windowSeconds, overlapSeconds).value|
    requires c < |signal.rows|
    requires MakePlan(signal, sfreq, windowSeconds, overlapSeconds).value.windowSamples >= 0
    ensures var plan := MakePlan(signal, sfreq, windowSeconds, overlapSeconds).value;
      var start := k * plan.stepSamples;
      var w := Windows(signal, sfreq, windowSeconds, overlapSeconds).value[k];
      && |w| == |signal.rows|
      && 0 <= start <= start + plan.windowSamples <= signal.samples
      && w[c] == signal.rows[c][start..start + plan.windowSamples]
      && |w[c]| == plan.windowSamples
  {
    WindowAt(signal, sfreq, windowSeconds, overlapSeconds, k);
  }

  /** A signal that is not 2-D is rejected whatever the durations; no window is produced. */
  lemma NotMatrixRejected(signal: Signal, sfreq: int, windowSeconds: real, overlapSeconds: real)
    requires signal.OtherRank?
    ensures Windows(signal, sfreq, windowSeconds, overlapSeconds) == Err(ValueError(ShapeMessage))
  {
  }

  /** An overlap at least as long as the window is rejected (for a non-negative rate). */
  lemma OverlapNotShorterRejected(signal: Signal, sfreq: int, windowSeconds: real, overlapSeconds: real)
    requires signal.Matrix?
    requires sfreq >= 0 && windowSeconds <= overlapSeconds
    ensures Windows(signal, sfreq, windowSeconds, overlapSeconds) == Err(ValueError(OverlapMessage))
  {
    assert windowSeconds * sfreq as real <= overlapSeconds * sfreq as real;
    TruncMonotonic(windowSeconds * sfreq as real, overlapSeconds * sfreq as real);
  }

  /** The overlap check is made on whole samples: 1.5 s windows with 1.2 s overlap at 1 Hz have step 0 and fail. */
  lemma SubSampleOverlapRejected(signal: Signal)
    requires signal.Matrix?
    ensures Windows(signal, 1, 1.5, 1.2) == Err(ValueError(OverlapMessage))
  {
    assert SampleCount(1.5, 1) == 1;
    assert SampleCount(1.2, 1) == 1;
  }

  /** 2 s windows with 1.99 s overlap at 250 Hz are accepted (step of 3 samples); 2 s overlap is not. */
  lemma OverlapBoundaryExample(signal: Signal)
    requires signal.Matrix?
    ensures Windows(signal, 250, 2.0, 2.0) == Err(ValueError(OverlapMessage))
    ensures MakePlan(signal, 250, 2.0, 1.99) == Ok(Plan(500, 3))
  {
    assert SampleCount(2.0, 250) == 500;
    assert SampleCount(1.99, 250) == 497;
  }

  /** Ten seconds at 250 Hz cut into 4 s windows without overlap: two windows, at 0 and 1000; the last 2 s are dropped. */
  lemma TenSecondExample(rows: seq<seq<real>>)
    ensures Windows(Matrix(rows, 2500), 250, 4.0, 0.0)
      == Ok([ColumnSlice(rows, 0, 1000), ColumnSlice(rows, 1000, 2000)])
  {
    var signal := Matrix(rows, 2500);
    assert SampleCount(4.0, 250) == 1000;
    assert SampleCount(0.0, 250) == 0;
    assert MakePlan(signal, 250, 4.0, 0.0) == Ok(Plan(1000, 1000));
    assert Starts(2000, 1000, 2500, 1000) == [];
    assert Starts(1000, 1000, 2500, 1000) == [1000];
    assert Starts(0, 1000, 2500, 1000) == [0, 1000];
    var ws := Slices(rows, [0, 1000], 1000);
    assert Windows(signal, 250, 4.0, 0.0) == Ok(ws);
    assert ws[0] == ColumnSlice(rows, 0, 1000);
    assert ws[1] == ColumnSlice(rows, 1000, 2000);
    assert ws == [ColumnSlice(rows, 0, 1000), ColumnSlice(rows, 1000, 2000)];
  }
}
