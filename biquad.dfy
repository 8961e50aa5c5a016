/*
 * The two-pole, two-zero filter state the effects carry: five
 * coefficients and the last two inputs and outputs. One step is the
 * direct-form recurrence the echo writes out inline:
 *   out = in*b0 + x[0]*b1 + x[1]*b2 - y[0]*a1 - y[1]*a2
 * after which x and y each shift by one. The block routine the
 * modulator calls applies the same step to every sample of a block.
 */
module Biquad {

  datatype Coefficients = Coefficients(b0: real, b1: real, b2: real, a1: real, a2: real)

  /** x0/x1 are the last and second-last inputs, y0/y1 the outputs. */
  datatype History = History(x0: real, x1: real, y0: real, y1: real)

  datatype FilterState = FilterState(coeffs: Coefficients, history: History)

  const ClearedHistory: History := History(0.0, 0.0, 0.0, 0.0)

  /** The output for `input` given the coefficients and history. */
  function Output(c: Coefficients, h: History, input: real): real {
    input * c.b0 + h.x0 * c.b1 + h.x1 * c.b2 - h.y0 * c.a1 - h.y1 * c.a2
  }

  /** The history after `input` produced `out`. */
  function Shift(h: History, input: real, out: real): (h': History)
    ensures h'.x0 == input && h'.x1 == h.x0 && h'.y0 == out && h'.y1 == h.y0
  {
    History(input, h.x0, out, h.y0)
  }

  /** The state after filtering one sample. */
  function Step(f: FilterState, x: real): FilterState {
    FilterState(f.coeffs, Shift(f.history, x, Output(f.coeffs, f.history, x)))
  }

  /** The state after filtering the first `n` samples of `s`. */
  function FilterRun(f: FilterState, s: seq<real>, n: nat): (r: FilterState)
    requires n <= |s|
    decreases n
    ensures r.coeffs == f.coeffs
  {
    if n == 0 then f else Step(FilterRun(f, s, n - 1), s[n - 1])
  }

  /** The output for sample i of `s`. */
  function Filtered(f: FilterState, s: seq<real>, i: nat): real
    requires i < |s|
  {
    Output(f.coeffs, FilterRun(f, s, i).history, s[i])
  }

  /** After at least two samples the history holds the last two inputs and
    * the last two outputs, whatever it held before. */
  lemma RunHistory(f: FilterState, s: seq<real>, n: nat)
    requires 2 <= n <= |s|
    ensures FilterRun(f, s, n).history
      == History(s[n - 1], s[n - 2], Filtered(f, s, n - 1), Filtered(f, s, n - 2))
  {
  }

  /** Filtering resumed on s[base..end] from the state the first `base`
    * samples left is filtering s further: the history carries over
    * between blocks. */
  lemma {:induction false} RunResumes(f: FilterState, s: seq<real>, base: nat, end: nat, k: nat)
    requires base <= end <= |s| && k <= end - base
    ensures FilterRun(FilterRun(f, s, base), s[base..end], k) == FilterRun(f, s, base + k)
    decreases k
  {
    if k > 0 {
      RunResumes(f, s, base, end, k - 1);
      assert s[base..end][k - 1] == s[base + k - 1];
      assert base + k - 1 == base + (k - 1);
    }
  }

  /** ...and so are its outputs. */
  lemma FilteredResumes(f: FilterState, s: seq<real>, base: nat, end: nat, k: nat)
    requires base <= end <= |s| && k < end - base
    ensures Filtered(FilterRun(f, s, base), s[base..end], k) == Filtered(f, s, base + k)
  {
    RunResumes(f, s, base, end, k);
  }

  datatype RunResult = RunResult(state: FilterState, out: seq<real>)

  /** Filtering a block: the state after it and one output per sample. */
  function Process(f: FilterState, s: seq<real>): (r: RunResult)
    ensures r.state == FilterRun(f, s, |s|)
    ensures |r.out| == |s| && forall k :: 0 <= k < |s| ==> r.out[k] == Filtered(f, s, k)
  {
    RunResult(FilterRun(f, s, |s|), seq(|s|, k requires 0 <= k < |s| => Filtered(f, s, k)))
  }

  /** The run over the first `n` samples looks at nothing after them. */
  lemma {:induction false} RunPrefix(f: FilterState, s: seq<real>, m: nat, n: nat)
    requires n <= m <= |s|
    ensures FilterRun(f, s[..m], n) == FilterRun(f, s, n)
    decreases n
  {
    if n > 0 {
      RunPrefix(f, s, m, n - 1);
      assert s[..m][n - 1] == s[n - 1];
    }
  }

  /** Filtering a block in two calls, the second from the state the first
    * left, gives the outputs and the end state of one call over the whole
    * block: the effects may cut a block into chunks anywhere. */
  lemma ProcessSplits(f: FilterState, s: seq<real>, base: nat)
    requires base <= |s|
    ensures var first := Process(f, s[..base]);
      var second := Process(first.state, s[base..]);
      first.out + second.out == Process(f, s).out && second.state == Process(f, s).state
  {
    var first := Process(f, s[..base]);
    var second := Process(first.state, s[base..]);
    RunPrefix(f, s, base, base);
    assert s[base..] == s[base..|s|];
    RunResumes(f, s, base, |s|, |s| - base);
    forall k | 0 <= k < |s|
      ensures (first.out + second.out)[k] == Process(f, s).out[k]
    {
      if k < base {
        RunPrefix(f, s, base, k);
      } else {
        FilteredResumes(f, s, base, |s|, k - base);
      }
    }
  }
}
