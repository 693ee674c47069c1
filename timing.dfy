/** The two timing rules of the scene's `update`: the frame clock that turns
    absolute timestamps into a per-frame `dt`, and the enemy-spawn accumulator.
    Times are seconds, as `real`. */
module Timing {

  /** The frame clock: no delta on the first frame (`lastUpdateTime` still 0),
      otherwise the time since the previous frame. */
  function FrameDelta(lastUpdateTime: real, currentTime: real): real {
    if lastUpdateTime > 0.0 then currentTime - lastUpdateTime else 0.0
  }

  /** The `dt` of every frame of a sequence of frame timestamps. */
  function Deltas(lastUpdateTime: real, times: seq<real>): (ds: seq<real>)
    ensures |ds| == |times|
    decreases |times|
  {
    if times == [] then []
    else [FrameDelta(lastUpdateTime, times[0])] + Deltas(times[0], times[1..])
  }

  function Sum(xs: seq<real>): real
    decreases |xs|
  {
    if xs == [] then 0.0 else xs[0] + Sum(xs[1..])
  }

  /** With positive timestamps the deltas add up to the time from the clock's
      baseline to the last frame; when there is no baseline yet, the first frame
      becomes the baseline and contributes nothing. */
  lemma {:induction false} DeltasTelescope(lastUpdateTime: real, times: seq<real>)
    requires |times| > 0
    requires forall i :: 0 <= i < |times| ==> times[i] > 0.0
    ensures Sum(Deltas(lastUpdateTime, times)) ==
              times[|times| - 1] - (if lastUpdateTime > 0.0 then lastUpdateTime else times[0])
    decreases |times|
  {
    if |times| > 1 {
      DeltasTelescope(times[0], times[1..]);
    }
  }

  /** The spawn accumulator after one Play frame, and whether an enemy is added. */
  datatype SpawnDecision = SpawnDecision(lastGenTime: real, spawn: bool)

  /** `lastGenTime += dt`; if it has reached this frame's `threshold`, it goes back
      to 0 and one enemy is spawned. */
  function SpawnStep(lastGenTime: real, dt: real, threshold: real): SpawnDecision {
    var elapsed := lastGenTime + dt;
    if elapsed >= threshold then SpawnDecision(0.0, true) else SpawnDecision(elapsed, false)
  }

  /** After any Play frame whose threshold is positive, the accumulator is strictly
      below that threshold: either it was reset or it has not reached it. */
  lemma SpawnStepBelowThreshold(lastGenTime: real, dt: real, threshold: real)
    requires threshold > 0.0
    ensures SpawnStep(lastGenTime, dt, threshold).lastGenTime < threshold
    ensures SpawnStep(lastGenTime, dt, threshold).spawn <==> lastGenTime + dt >= threshold
  {
  }

  /** The accumulator and the number of enemies spawned over consecutive Play frames. */
  datatype SpawnTally = SpawnTally(lastGenTime: real, spawns: nat)

  function SpawnRun(lastGenTime: real, dts: seq<real>, thresholds: seq<real>): SpawnTally
    requires |dts| == |thresholds|
    decreases |dts|
  {
    if dts == [] then SpawnTally(lastGenTime, 0)
    else
      var d := SpawnStep(lastGenTime, dts[0], thresholds[0]);
      var rest := SpawnRun(d.lastGenTime, dts[1..], thresholds[1..]);
      SpawnTally(rest.lastGenTime, rest.spawns + if d.spawn then 1 else 0)
  }

  /** Rate limit: with every threshold at least 0.5 s, each spawn consumes at least
      0.5 s of accumulated Play time, so `k` spawns need `0.5 * k` seconds. */
  lemma {:induction false} SpawnRate(lastGenTime: real, dts: seq<real>, thresholds: seq<real>)
    requires |dts| == |thresholds|
    requires forall i :: 0 <= i < |thresholds| ==> 0.5 <= thresholds[i]
    ensures SpawnRun(lastGenTime, dts, thresholds).lastGenTime
              + 0.5 * (SpawnRun(lastGenTime, dts, thresholds).spawns as real)
            <= lastGenTime + Sum(dts)
    decreases |dts|
  {
    if dts != [] {
      var d := SpawnStep(lastGenTime, dts[0], thresholds[0]);
      SpawnRate(d.lastGenTime, dts[1..], thresholds[1..]);
    }
  }

  /** With every threshold at most 1.5 s, the accumulator stays below 1.5 s after
      any non-empty run of Play frames, whatever it started at. */
  lemma {:induction false} SpawnRunBelowMax(lastGenTime: real, dts: seq<real>, thresholds: seq<real>)
    requires |dts| == |thresholds| > 0
    requires forall i :: 0 <= i < |thresholds| ==> 0.5 <= thresholds[i] <= 1.5
    ensures SpawnRun(lastGenTime, dts, thresholds).lastGenTime < 1.5
    decreases |dts|
  {
    if |dts| > 1 {
      var d := SpawnStep(lastGenTime, dts[0], thresholds[0]);
      SpawnRunBelowMax(d.lastGenTime, dts[1..], thresholds[1..]);
    }
  }

  /** With non-negative frame deltas, a non-negative accumulator stays non-negative. */
  lemma {:induction false} SpawnRunNonNegative(lastGenTime: real, dts: seq<real>, thresholds: seq<real>)
    requires |dts| == |thresholds|
    requires 0.0 <= lastGenTime
    requires forall i :: 0 <= i < |dts| ==> 0.0 <= dts[i]
    ensures 0.0 <= SpawnRun(lastGenTime, dts, thresholds).lastGenTime
    decreases |dts|
  {
    if dts != [] {
      var d := SpawnStep(lastGenTime, dts[0], thresholds[0]);
      SpawnRunNonNegative(d.lastGenTime, dts[1..], thresholds[1..]);
    }
  }

  /** For timestamps that never go backwards, starting from a non-negative
      accumulator, there is at most one spawn per 0.5 s of Play time (plus what was
      already accumulated). */
  lemma SpawnsPerHalfSecond(lastGenTime: real, dts: seq<real>, thresholds: seq<real>)
    requires |dts| == |thresholds|
    requires 0.0 <= lastGenTime
    requires forall i :: 0 <= i < |dts| ==> 0.0 <= dts[i]
    requires forall i :: 0 <= i < |thresholds| ==> 0.5 <= thresholds[i]
    ensures 0.5 * (SpawnRun(lastGenTime, dts, thresholds).spawns as real) <= lastGenTime + Sum(dts)
  {
    SpawnRate(lastGenTime, dts, thresholds);
    SpawnRunNonNegative(lastGenTime, dts, thresholds);
  }
}
