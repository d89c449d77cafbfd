/** The frame-time bookkeeping that several demos repeat in `tick`:
    `deltaTime = elapsedTime - lastTime; lastTime = elapsedTime`, with
    `lastTime` starting at 0. */
module Clock {

  /** The deltas produced by a run of frames whose clock readings are
      `times`, starting from `lastTime == last`. */
  function Deltas(last: real, times: seq<real>): (ds: seq<real>)
    ensures |ds| == |times|
    ensures |times| > 0 ==> ds[0] == times[0] - last
    decreases |times|
  {
    if times == [] then [] else [times[0] - last] + Deltas(times[0], times[1..])
  }

  function Sum(s: seq<real>): real
  {
    if s == [] then 0.0 else s[0] + Sum(s[1..])
  }

  /** The `lastTime` after the frames: the last clock reading, or the start
      value when no frame ran. */
  function LastTime(last: real, times: seq<real>): real
  {
    if times == [] then last else times[|times| - 1]
  }

  /** Delta `k` is the gap between clock readings `k - 1` and `k`. */
  lemma {:induction false} DeltaAt(last: real, times: seq<real>, k: nat)
    requires k < |times|
    ensures Deltas(last, times)[k] == times[k] - (if k == 0 then last else times[k - 1])
    decreases k
  {
    if k > 0 {
      DeltaAt(times[0], times[1..], k - 1);
    }
  }

  /** The deltas telescope: over any run of frames they add up to the
      time between the starting `lastTime` and the final one. */
  lemma {:induction false} DeltasTelescope(last: real, times: seq<real>)
    ensures Sum(Deltas(last, times)) == LastTime(last, times) - last
    decreases |times|
  {
    if times != [] {
      DeltasTelescope(times[0], times[1..]);
      assert LastTime(times[0], times[1..]) == LastTime(last, times);
    }
  }

  /** One more frame adds one delta: the gap from the previous `lastTime`. */
  lemma {:induction false} DeltasAppend(last: real, times: seq<real>, t: real)
    ensures Deltas(last, times + [t]) == Deltas(last, times) + [t - LastTime(last, times)]
    decreases |times|
  {
    if times != [] {
      assert (times + [t])[1..] == times[1..] + [t];
      DeltasAppend(times[0], times[1..], t);
    }
  }

  /** From `lastTime == 0` (the scripts' initial value) the deltas add up to
      the last clock reading. */
  lemma DeltasSumToElapsed(times: seq<real>)
    requires times != []
    ensures Sum(Deltas(0.0, times)) == times[|times| - 1]
  {
    DeltasTelescope(0.0, times);
  }
}
