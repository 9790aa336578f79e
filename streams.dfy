/**
 * Building an event stream: timestamps are the running sums of successive
 * draws, and accumulation stops at the first sum that reaches the horizon
 * (that sum is kept) or when the supplied draws run out.
 */
module EventStreams {
  import opened Sampling

  function Sum(samples: seq<real>): real
    decreases |samples|
  {
    if samples == [] then 0.0 else samples[0] + Sum(samples[1..])
  }

  predicate NonNegative(s: seq<real>) {
    forall k :: 0 <= k < |s| ==> 0.0 <= s[k]
  }

  predicate NonDecreasing(s: seq<real>) {
    forall i, j :: 0 <= i <= j < |s| ==> s[i] <= s[j]
  }

  /** The stream extends to the horizon: non-empty with its last timestamp at or past it. */
  predicate ReachesHorizon(s: seq<real>, horizon: real) {
    0.0 < horizon ==> |s| > 0 && horizon <= s[|s| - 1]
  }

  /** The draws at `rate` taken from the standard variates `units`. */
  function Draws(units: seq<real>, rate: real): (draws: seq<real>)
    ensures |draws| == |units|
    ensures forall k :: 0 <= k < |units| ==> draws[k] == ExponentialDraw(rate, units[k])
    ensures NonNegative(units) ==> NonNegative(draws)
  {
    seq(|units|, k requires 0 <= k < |units| => ExponentialDraw(rate, units[k]))
  }

  /** The timestamps accumulated on top of `start`, while the running sum is below `horizon`. */
  function StreamFrom(start: real, samples: seq<real>, horizon: real): (times: seq<real>)
    ensures |times| <= |samples|
    decreases |samples|
  {
    if horizon <= start || samples == [] then []
    else [start + samples[0]] + StreamFrom(start + samples[0], samples[1..], horizon)
  }

  /**
   * The accumulation loop of the simulator's constructor, drawing at `rate`
   * from `units` until the running sum reaches `horizon`.
   */
  method AccumulateEvents(units: seq<real>, rate: real, horizon: real) returns (times: seq<real>)
    ensures times == StreamFrom(0.0, Draws(units, rate), horizon)
  {
    ghost var draws := Draws(units, rate);
    times := [];
    var sum := 0.0;
    var i := 0;
    while sum < horizon && i < |units|
      invariant 0 <= i <= |units|
      invariant times + StreamFrom(sum, draws[i..], horizon) == StreamFrom(0.0, draws, horizon)
      decreases |units| - i
    {
      var time := ExponentialDraw(rate, units[i]);
      assert draws[i..][1..] == draws[i + 1..];
      sum := sum + time;
      times := times + [sum];
      i := i + 1;
    }
    assert times + [] == times;
  }

  /** Each timestamp is `start` plus the sum of the draws up to and including its own. */
  lemma {:induction false} StreamIsPrefixSums(start: real, samples: seq<real>, horizon: real, k: nat)
    requires k < |StreamFrom(start, samples, horizon)|
    ensures StreamFrom(start, samples, horizon)[k] == start + Sum(samples[..k + 1])
    decreases |samples|
  {
    var next := start + samples[0];
    assert samples[..k + 1][1..] == samples[1..][..k];
    if k > 0 {
      StreamIsPrefixSums(next, samples[1..], horizon, k - 1);
    }
    assert Sum(samples[..k + 1]) == samples[0] + Sum(samples[1..][..k]);
    assert k == 0 ==> samples[1..][..k] == [];
  }

  /** With non-negative draws, no timestamp lies below `start`. */
  lemma {:induction false} StreamAboveStart(start: real, samples: seq<real>, horizon: real)
    requires NonNegative(samples)
    ensures forall k :: 0 <= k < |StreamFrom(start, samples, horizon)| ==> start <= StreamFrom(start, samples, horizon)[k]
    decreases |samples|
  {
    if !(horizon <= start || samples == []) {
      var next := start + samples[0];
      StreamAboveStart(next, samples[1..], horizon);
    }
  }

  /** With non-negative draws the timestamps never decrease. */
  lemma {:induction false} StreamNonDecreasing(start: real, samples: seq<real>, horizon: real)
    requires NonNegative(samples)
    ensures NonDecreasing(StreamFrom(start, samples, horizon))
    ensures NonNegative(StreamFrom(start, samples, horizon)) || start < 0.0
    decreases |samples|
  {
    if !(horizon <= start || samples == []) {
      var next := start + samples[0];
      var rest := StreamFrom(next, samples[1..], horizon);
      StreamNonDecreasing(next, samples[1..], horizon);
      StreamAboveStart(next, samples[1..], horizon);
      var times := StreamFrom(start, samples, horizon);
      assert times == [next] + rest;
      forall i, j | 0 <= i <= j < |times| ensures times[i] <= times[j] {
        if i > 0 {
          assert times[i] == rest[i - 1] && times[j] == rest[j - 1];
        }
      }
    }
  }

  /** Every timestamp except the last lies strictly before the horizon. */
  lemma {:induction false} StreamBeforeHorizon(start: real, samples: seq<real>, horizon: real)
    ensures forall k :: 0 <= k < |StreamFrom(start, samples, horizon)| - 1 ==> StreamFrom(start, samples, horizon)[k] < horizon
    decreases |samples|
  {
    if !(horizon <= start || samples == []) {
      var next := start + samples[0];
      var rest := StreamFrom(next, samples[1..], horizon);
      StreamBeforeHorizon(next, samples[1..], horizon);
      var times := StreamFrom(start, samples, horizon);
      assert times == [next] + rest;
      forall k | 0 <= k < |times| - 1 ensures times[k] < horizon {
        if k > 0 {
          assert times[k] == rest[k - 1];
        } else {
          assert rest != [];
        }
      }
    }
  }

  /**
   * When the draws add up to the horizon, the stream reaches it: its last
   * timestamp is at or past the horizon.
   */
  lemma {:induction false} StreamReachesHorizon(start: real, samples: seq<real>, horizon: real)
    requires start < horizon <= start + Sum(samples)
    ensures |StreamFrom(start, samples, horizon)| > 0
    ensures horizon <= StreamFrom(start, samples, horizon)[|StreamFrom(start, samples, horizon)| - 1]
    decreases |samples|
  {
    var next := start + samples[0];
    if next < horizon {
      StreamReachesHorizon(next, samples[1..], horizon);
    }
  }

  /** A stream that stops short of the horizon has used up every draw. */
  lemma {:induction false} ShortStreamUsesAllDraws(start: real, samples: seq<real>, horizon: real)
    requires start < horizon
    requires var times := StreamFrom(start, samples, horizon); times == [] || times[|times| - 1] < horizon
    ensures |StreamFrom(start, samples, horizon)| == |samples|
    decreases |samples|
  {
    if samples != [] {
      var next := start + samples[0];
      if next < horizon {
        ShortStreamUsesAllDraws(next, samples[1..], horizon);
      }
    }
  }
}
