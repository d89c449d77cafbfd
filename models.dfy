/** The animated fox (models/src/main.ts): a GLTF load callback that creates
    an animation mixer and plays the clip the debug slider names, a slider
    whose `onFinishChange` stops the current action and plays the newly
    chosen clip once both mixer and action exist, and a frame loop that
    advances the mixer by the frame's delta. */
module Models {
  import opened Common
  import Clock

  /** An animation clip of the loaded file (the fox has "Survey", "Walk"
      and "Run"). */
  datatype Clip = Clip(name: string)

  /** The calls the script makes on animation actions, in order. */
  datatype Call = Play(clip: Clip) | Stop(clip: Clip)

  /** The slider's `.min(0).max(2).step(1)`. */
  const SliderMin: int := 0
  const SliderMax: int := 2

  /** The value lil-gui stores in `debugObject.animation` for a dragged or
      typed value `v`: snapped to the step counted from the minimum, then
      clamped to the range. */
  function SliderValue(v: real): (a: int)
    ensures SliderMin <= a <= SliderMax
    ensures -0.5 <= v && v < 2.5 ==> -0.5 <= v - a as real < 0.5
    ensures v < -0.5 ==> a == SliderMin
    ensures v >= 2.5 ==> a == SliderMax
  {
    var k := Round(v);
    if k < SliderMin then SliderMin else if k > SliderMax then SliderMax else k
  }

  /** Every position the slider can show is one it keeps, so setting the
      slider to its own value changes nothing. */
  lemma SliderKeepsIntegers(k: int)
    requires SliderMin <= k <= SliderMax
    ensures SliderValue(k as real) == k
  {
  }

  lemma SliderIdempotent(v: real)
    ensures SliderValue(SliderValue(v) as real) == SliderValue(v)
  {
    SliderKeepsIntegers(SliderValue(v));
  }

  /** The module-level state: `debugObject.animation`, the nullable `mixer`
      (held as its accumulated time), `animations`, the nullable `action`
      (held as the clip it plays), the calls made on actions so far, and
      `lastTime`. */
  datatype AnimState = AnimState(
    animation: int,
    mixer: Option<real>,
    animations: seq<Clip>,
    action: Option<Clip>,
    calls: seq<Call>,
    lastTime: real)

  /** The state when the script starts. */
  const Initial: AnimState := AnimState(0, None, [], None, [], 0.0)

  /** A handler's result: the new state, and whether it threw. Indexing
      `animations` past its end yields `undefined`, and `clipAction`
      throws on it. */
  datatype Outcome = Outcome(state: AnimState, threw: bool)

  /** The GLTF load callback (main.ts:47-56) for a file with clips `clips`:
      a mixer at time 0 and the file's clips are installed whatever happens
      next; the callback throws exactly when the slider names no clip, and
      otherwise plays the clip it names. */
  function Loaded(s: AnimState, clips: seq<Clip>): (o: Outcome)
    ensures o.state.mixer == Some(0.0) && o.state.animations == clips
    ensures o.state.animation == s.animation && o.state.lastTime == s.lastTime
    ensures o.threw <==> !(0 <= s.animation < |clips|)
    ensures !o.threw ==> o.state.action == Some(clips[s.animation])
  {
    var s1 := s.(mixer := Some(0.0), animations := clips);
    if 0 <= s.animation < |clips| then
      var c := clips[s.animation];
      Outcome(s1.(action := Some(c), calls := s.calls + [Play(c)]), false)
    else
      Outcome(s1, true)
  }

  /** The slider moved to `v` and released (main.ts:16-27): lil-gui stores
      the snapped value first, then `onFinishChange` runs. */
  function Switched(s: AnimState, v: real): (o: Outcome)
    ensures o.state.animation == SliderValue(v)
    ensures o.state.mixer == s.mixer && o.state.animations == s.animations && o.state.lastTime == s.lastTime
    ensures |s.calls| <= |o.state.calls| <= |s.calls| + 2 && o.state.calls[..|s.calls|] == s.calls
    ensures o.threw ==> s.mixer.Some? && s.action.Some?
    ensures o.state.action != s.action ==>
      0 <= o.state.animation < |s.animations| && o.state.action == Some(s.animations[o.state.animation])
  {
    var k := SliderValue(v);
    var s1 := s.(animation := k);
    if s.mixer.Some? && s.action.Some? then
      var s2 := s1.(calls := s.calls + [Stop(s.action.value)]);
      if 0 <= k < |s.animations| then
        var c := s.animations[k];
        Outcome(s2.(action := Some(c), calls := s2.calls + [Play(c)]), false)
      else
        Outcome(s2, true)
    else
      Outcome(s1, false)
  }

  /** One `tick` at clock reading `elapsed` (main.ts:137-145): `lastTime`
      becomes the reading, an existing mixer advances by the time since the
      previous reading, a missing one stays missing, and nothing else
      changes. */
  function Ticked(s: AnimState, elapsed: real): (r: AnimState)
    ensures r.lastTime == elapsed && r.mixer.Some? == s.mixer.Some?
    ensures s.mixer.Some? ==> r.mixer.value - s.mixer.value == elapsed - s.lastTime
    ensures r.(lastTime := s.lastTime, mixer := s.mixer) == s
  {
    var deltaTime := elapsed - s.lastTime;
    s.(lastTime := elapsed, mixer := if s.mixer.Some? then Some(s.mixer.value + deltaTime) else None)
  }

  /** What the script keeps true: the slider value is in range, and an
      action, once there is one, exists alongside the mixer, is the clip
      `animations[debugObject.animation]` and was the last one played. */
  predicate Consistent(s: AnimState)
  {
    && SliderMin <= s.animation <= SliderMax
    && (s.action.Some? ==>
          && s.mixer.Some?
          && s.animation < |s.animations|
          && s.action.value == s.animations[s.animation]
          && |s.calls| > 0
          && s.calls[|s.calls| - 1] == Play(s.action.value))
  }

  lemma InitialConsistent()
    ensures Consistent(Initial)
    ensures Initial.mixer.None? && Initial.action.None? && Initial.calls == []
  {
  }

  /** The load callback creates the mixer at time 0 and, when the slider
      names one of the file's clips, plays exactly that clip; otherwise it
      throws with no action. */
  lemma LoadSpec(s: AnimState, clips: seq<Clip>)
    requires Consistent(s)
    ensures var o := Loaded(s, clips);
      && o.state.mixer == Some(0.0) && o.state.animations == clips
      && o.state.animation == s.animation && o.state.lastTime == s.lastTime
      && (o.threw <==> s.animation >= |clips|)
      && (!o.threw ==> o.state.action == Some(clips[s.animation]) && o.state.calls == s.calls + [Play(clips[s.animation])])
      && (o.threw ==> o.state.action == s.action && o.state.calls == s.calls)
      && (!o.threw ==> Consistent(o.state))
  {
  }

  /** Before the model has loaded, or after a load whose first clip threw,
      moving the slider changes `debugObject.animation` and nothing else. */
  lemma SwitchBeforeLoad(s: AnimState, v: real)
    requires s.mixer.None? || s.action.None?
    ensures Switched(s, v) == Outcome(s.(animation := SliderValue(v)), false)
  {
  }

  /** After load, a switch first stops the current action, then plays the
      chosen clip, or throws, with the old action stopped, when the file
      has no such clip. */
  lemma SwitchAfterLoad(s: AnimState, v: real)
    requires s.mixer.Some? && s.action.Some?
    ensures var o := Switched(s, v); var k := SliderValue(v);
      && o.state.animation == k
      && (o.threw <==> k >= |s.animations|)
      && (!o.threw ==> o.state.calls == s.calls + [Stop(s.action.value), Play(s.animations[k])])
      && (!o.threw ==> o.state.action == Some(s.animations[k]))
      && (o.threw ==> o.state.calls == s.calls + [Stop(s.action.value)] && o.state.action == s.action)
      && o.state.mixer == s.mixer && o.state.animations == s.animations && o.state.lastTime == s.lastTime
  {
  }

  /** Every handler that does not throw keeps the state consistent. */
  lemma EventsKeepConsistent(s: AnimState, clips: seq<Clip>, v: real, elapsed: real)
    requires Consistent(s)
    ensures !Loaded(s, clips).threw ==> Consistent(Loaded(s, clips).state)
    ensures !Switched(s, v).threw ==> Consistent(Switched(s, v).state)
    ensures Consistent(Ticked(s, elapsed))
  {
    LoadSpec(s, clips);
    if s.mixer.Some? && s.action.Some? {
      SwitchAfterLoad(s, v);
    }
  }

  /** With as many clips as the slider has positions (the fox has three),
      neither the load callback nor any later switch can throw. */
  lemma EnoughClipsNeverThrow(s: AnimState, clips: seq<Clip>, v: real)
    requires Consistent(s)
    requires |clips| > SliderMax
    ensures !Loaded(s, clips).threw
    ensures |s.animations| > SliderMax ==> !Switched(s, v).threw
  {
  }

  /** The frame loop over a run of clock readings. */
  function TickRun(s: AnimState, times: seq<real>): AnimState
    decreases |times|
  {
    if times == [] then s else TickRun(Ticked(s, times[0]), times[1..])
  }

  /** Over any run of frames the mixer advances by the sum of the frame
      deltas, which is the time from the first `lastTime` to the last
      clock reading; without a mixer nothing advances. Nothing but the
      mixer and `lastTime` changes. */
  lemma {:induction false} MixerFollowsClock(s: AnimState, times: seq<real>)
    ensures var r := TickRun(s, times);
      && r.lastTime == Clock.LastTime(s.lastTime, times)
      && r.mixer.Some? == s.mixer.Some?
      && (s.mixer.Some? ==> r.mixer.value == s.mixer.value + Clock.Sum(Clock.Deltas(s.lastTime, times)))
      && (s.mixer.Some? ==> r.mixer.value == s.mixer.value + Clock.LastTime(s.lastTime, times) - s.lastTime)
      && r.animation == s.animation && r.animations == s.animations && r.action == s.action && r.calls == s.calls
    decreases |times|
  {
    Clock.DeltasTelescope(s.lastTime, times);
    if times != [] {
      var s1 := Ticked(s, times[0]);
      MixerFollowsClock(s1, times[1..]);
      assert Clock.LastTime(times[0], times[1..]) == Clock.LastTime(s.lastTime, times);
    }
  }

  /** The script's module-level variables. */
  class AnimationDemo {
    var animation: int          // debugObject.animation
    var mixer: Option<real>
    var animations: seq<Clip>
    var action: Option<Clip>
    var calls: seq<Call>
    var lastTime: real

    ghost function State(): AnimState
      reads this
    {
      AnimState(animation, mixer, animations, action, calls, lastTime)
    }

    constructor ()
      ensures State() == Initial && Consistent(State())
    {
      animation := 0;
      mixer := None;
      animations := [];
      action := None;
      calls := [];
      lastTime := 0.0;
    }

    /** The GLTF load callback; `threw` reports the TypeError of a slider
        value naming no clip of the file. */
    method OnLoad(clips: seq<Clip>) returns (threw: bool)
      modifies this
      ensures State() == Loaded(old(State()), clips).state && threw == Loaded(old(State()), clips).threw
    {
      mixer := Some(0.0);
      animations := clips;
      threw := false;
      if 0 <= animation < |animations| {
        action := Some(animations[animation]);
        calls := calls + [Play(action.value)];
      } else {
        threw := true;
      }
    }

    /** The slider released at `v`. */
    method OnFinishChange(v: real) returns (threw: bool)
      modifies this
      ensures State() == Switched(old(State()), v).state && threw == Switched(old(State()), v).threw
    {
      animation := SliderValue(v);
      threw := false;
      if mixer.Some? && action.Some? {
        calls := calls + [Stop(action.value)];
        if 0 <= animation < |animations| {
          action := Some(animations[animation]);
          calls := calls + [Play(action.value)];
        } else {
          threw := true;
        }
      }
    }

    /** One `tick` at clock reading `elapsed`. */
    method Tick(elapsed: real)
      modifies this
      ensures State() == Ticked(old(State()), elapsed)
    {
      var deltaTime := elapsed - lastTime;
      lastTime := elapsed;
      if mixer.Some? {
        mixer := Some(mixer.value + deltaTime);
      }
    }
  }
}
