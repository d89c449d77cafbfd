/** The hover demo (raycast/src/main.ts): every frame the three spheres of
    `objectGroup` are painted red, those the mouse ray hits are painted
    blue, the nullable `currentIntersect` records the nearest hit and logs
    "mouse enter" / "mouse leave" on its edges, and the loaded duck grows
    while the ray hits it. The raycaster's answers are inputs per frame. */
module Raycast {
  import opened Common

  /** The two colours the frame sets: "#ff0000" and "#0000ff". */
  datatype Color = Red | Blue

  /** One entry of `raycaster.intersectObjects(objectGroup.children)`:
      which child was hit (its index in the group) and how far away. */
  datatype Intersection = Intersection(child: nat, distance: real)

  /** The group holds `object1`, `object2` and `object3`. */
  const GroupSize: nat := 3

  const EnterMessage: string := "mouse enter"
  const LeaveMessage: string := "mouse leave"
  const ClickMessage: string := "click on an object"

  /** Every intersection names a child of the group: the raycaster is only
      given the group's children. */
  predicate InGroup(hits: seq<Intersection>)
  {
    forall j :: 0 <= j < |hits| ==> hits[j].child < GroupSize
  }

  predicate Hit(hits: seq<Intersection>, k: nat)
  {
    exists j :: 0 <= j < |hits| && hits[j].child == k
  }

  /** The colours after a frame: blue exactly for the children hit. */
  function FrameColors(hits: seq<Intersection>): (c: seq<Color>)
    ensures |c| == GroupSize
    ensures forall k :: 0 <= k < GroupSize ==> (c[k] == Blue <==> Hit(hits, k))
    ensures forall k :: 0 <= k < GroupSize ==> (c[k] == Red <==> !Hit(hits, k))
  {
    seq(GroupSize, k requires 0 <= k => if Hit(hits, k) then Blue else Red)
  }

  /** The hover state after a frame and what the frame logs. */
  datatype Hover = Hover(current: Option<Intersection>, events: seq<string>)

  /** The enter/leave logic of one frame (main.ts:167-177). */
  function HoverStep(current: Option<Intersection>, hits: seq<Intersection>): (h: Hover)
    ensures h.current.Some? <==> |hits| > 0
    ensures h.current.Some? ==> h.current.value == hits[0]
    ensures h.events == [EnterMessage] <==> current.None? && |hits| > 0
    ensures h.events == [LeaveMessage] <==> current.Some? && |hits| == 0
    ensures h.events == [] <==> (current.Some? <==> |hits| > 0)
  {
    if |hits| > 0 then Hover(Some(hits[0]), if current.None? then [EnterMessage] else [])
    else Hover(None, if current.Some? then [LeaveMessage] else [])
  }

  /** The model's uniform scale after a frame, given whether the ray hit it. */
  function ModelScale(modelHit: bool): (s: real)
    ensures s == 1.5 <==> modelHit
    ensures s == 1.0 <==> !modelHit
  {
    if modelHit then 1.5 else 1.0
  }

  /** The spheres' heights at `elapsed` seconds (main.ts:142-144): each bobs
      with amplitude 1.5 at its own rate 1, 0.8 and 1.5. */
  function Heights(elapsed: real, sin: real -> real): (y: seq<real>)
    ensures |y| == GroupSize
  {
    [sin(elapsed) * 1.5, sin(elapsed * 0.8) * 1.5, sin(elapsed * 1.5) * 1.5]
  }

  /** The hover logic over a run of frames: no frames change nothing, and
      each frame logs at most one line. */
  function HoverRun(current: Option<Intersection>, frames: seq<seq<Intersection>>): (h: Hover)
    ensures frames == [] ==> h == Hover(current, [])
    ensures |h.events| <= |frames|
    decreases |frames|
  {
    if frames == [] then Hover(current, [])
    else
      var first := HoverStep(current, frames[0]);
      var rest := HoverRun(first.current, frames[1..]);
      Hover(rest.current, first.events + rest.events)
  }

  /** After a non-empty run the hover state is decided by the last frame
      alone: the nearest hit of that frame, or null when it hit nothing. */
  lemma {:induction false} HoverEndsOnLastFrame(current: Option<Intersection>, frames: seq<seq<Intersection>>)
    requires frames != []
    ensures HoverRun(current, frames).current == HoverStep(None, frames[|frames| - 1]).current
    decreases |frames|
  {
    if |frames| > 1 {
      var first := HoverStep(current, frames[0]);
      HoverEndsOnLastFrame(first.current, frames[1..]);
      assert frames[1..][|frames[1..]| - 1] == frames[|frames| - 1];
    }
  }

  function Parity(current: Option<Intersection>): nat
  {
    if current.Some? then 1 else 0
  }

  /** The `k`-th edge of an alternating log: enter, leave, enter, ... */
  function Edge(k: nat): string
  {
    if k % 2 == 0 then EnterMessage else LeaveMessage
  }

  /** `events` is the alternating log read from position `p` on. */
  predicate Alternates(events: seq<string>, p: nat)
  {
    forall i :: 0 <= i < |events| ==> events[i] == Edge(i + p)
  }

  lemma AlternatesConcat(a: seq<string>, b: seq<string>, p: nat)
    requires Alternates(a, p) && Alternates(b, |a| + p)
    ensures Alternates(a + b, p)
  {
    forall i | 0 <= i < |a + b| ensures (a + b)[i] == Edge(i + p) {
      if i >= |a| {
        assert (a + b)[i] == b[i - |a|];
      }
    }
  }

  /** Reading positions of the same parity gives the same log. */
  lemma AlternatesShift(b: seq<string>, p: nat, q: nat)
    requires Alternates(b, p) && p % 2 == q % 2
    ensures Alternates(b, q)
  {
    forall i | 0 <= i < |b| ensures b[i] == Edge(i + q) {
      assert (i + p) % 2 == (i + q) % 2;
    }
  }

  /** A run is its first frame followed by the rest. */
  lemma HoverRunUnfold(current: Option<Intersection>, frames: seq<seq<Intersection>>)
    requires frames != []
    ensures var first := HoverStep(current, frames[0]);
      var rest := HoverRun(first.current, frames[1..]);
      HoverRun(current, frames) == Hover(rest.current, first.events + rest.events)
  {
  }

  lemma ParityAdds(a: nat, b: nat, p: nat, p1: nat)
    requires p1 == (a + p) % 2
    ensures (b + p1) % 2 == (a + b + p) % 2
  {
  }

  /** One frame logs the edge its starting state allows, and flips the
      parity exactly when it logs. */
  lemma HoverStepAlternates(current: Option<Intersection>, hits: seq<Intersection>)
    ensures var h := HoverStep(current, hits);
      && Alternates(h.events, Parity(current))
      && Parity(h.current) == (|h.events| + Parity(current)) % 2
  {
  }

  /** Over any run of frames the ray ends over an object exactly when the
      log has an odd number of entries counted from the initial state. */
  lemma {:induction false} HoverRunParity(current: Option<Intersection>, frames: seq<seq<Intersection>>)
    ensures var r := HoverRun(current, frames);
      Parity(r.current) == (|r.events| + Parity(current)) % 2
    decreases |frames|
  {
    if frames != [] {
      var first := HoverStep(current, frames[0]);
      var rest := HoverRun(first.current, frames[1..]);
      HoverStepAlternates(current, frames[0]);
      HoverRunParity(first.current, frames[1..]);
      HoverRunUnfold(current, frames);
      ParityAdds(|first.events|, |rest.events|, Parity(current), Parity(first.current));
      assert |first.events + rest.events| == |first.events| + |rest.events|;
    }
  }

  /** Over any run of frames the log alternates between "mouse enter" and
      "mouse leave", starting with the edge the initial state allows, and the
      ray is over an object at the end exactly when the log has an odd number
      of entries counted from the initial state. */
  lemma {:induction false} EnterLeaveAlternate(current: Option<Intersection>, frames: seq<seq<Intersection>>)
    ensures var r := HoverRun(current, frames);
      && Alternates(r.events, Parity(current))
      && (r.current.Some? <==> (|r.events| + Parity(current)) % 2 == 1)
    decreases |frames|
  {
    HoverRunParity(current, frames);
    if frames != [] {
      var p := Parity(current);
      var first := HoverStep(current, frames[0]);
      var rest := HoverRun(first.current, frames[1..]);
      HoverStepAlternates(current, frames[0]);
      EnterLeaveAlternate(first.current, frames[1..]);
      HoverRunUnfold(current, frames);
      AlternatesShift(rest.events, Parity(first.current), |first.events| + p);
      AlternatesConcat(first.events, rest.events, p);
    }
  }

  /** From the initial `currentIntersect = null`, the log is
      enter, leave, enter, ... and ends on "mouse enter" exactly when the ray
      is over an object. */
  lemma EnterLeaveFromStart(frames: seq<seq<Intersection>>)
    ensures var r := HoverRun(None, frames);
      && (forall i :: 0 <= i < |r.events| ==> r.events[i] == (if i % 2 == 0 then EnterMessage else LeaveMessage))
      && (r.current.Some? <==> |r.events| % 2 == 1)
  {
    EnterLeaveAlternate(None, frames);
  }

  /** The demo's module-level state. */
  class HoverDemo {
    var colors: seq<Color>                // the group children's material colours
    var currentIntersect: Option<Intersection>
    var model: Option<real>               // the duck's scale once it has loaded
    var heights: seq<real>                // the children's `position.y`
    var lastTime: real
    var log: seq<string>

    ghost predicate Valid()
      reads this
    {
      |colors| == GroupSize && |heights| == GroupSize
    }

    constructor ()
      ensures Valid()
      ensures colors == [Red, Red, Red] && currentIntersect == None && model == None && log == []
      ensures heights == [0.0, 0.0, 0.0] && lastTime == 0.0
    {
      colors := [Red, Red, Red];
      heights := [0.0, 0.0, 0.0];
      lastTime := 0.0;
      currentIntersect := None;
      model := None;
      log := [];
    }

    /** The GLTF load callback: the duck enters the scene at its own scale. */
    method OnModelLoaded()
      modifies this
      ensures model == Some(1.0)
      ensures colors == old(colors) && currentIntersect == old(currentIntersect) && log == old(log)
      ensures heights == old(heights) && lastTime == old(lastTime)
    {
      model := Some(1.0);
    }

    /** One `tick` at clock reading `elapsed`: `hits` is what the raycaster
        reports for the group this frame, `modelHit` whether it reports
        anything for the duck. */
    method Tick(elapsed: real, sin: real -> real, hits: seq<Intersection>, modelHit: bool)
      requires Valid() && InGroup(hits)
      modifies this
      ensures Valid()
      ensures lastTime == elapsed && heights == Heights(elapsed, sin)
      ensures colors == FrameColors(hits)
      ensures currentIntersect == HoverStep(old(currentIntersect), hits).current
      ensures log == old(log) + HoverStep(old(currentIntersect), hits).events
      ensures model == if old(model).Some? then Some(ModelScale(modelHit)) else None
    {
      lastTime := elapsed;
      heights := Heights(elapsed, sin);
      // every child back to red
      var c := colors;
      var i := 0;
      while i < |c|
        invariant 0 <= i <= |c| == GroupSize
        invariant forall k :: 0 <= k < i ==> c[k] == Red
      {
        c := c[i := Red];
        i := i + 1;
      }
      // the children hit turn blue
      var j := 0;
      while j < |hits|
        invariant 0 <= j <= |hits| && |c| == GroupSize
        invariant forall k :: 0 <= k < GroupSize ==>
          c[k] == if exists j' :: 0 <= j' < j && hits[j'].child == k then Blue else Red
      {
        c := c[hits[j].child := Blue];
        j := j + 1;
      }
      assert c == FrameColors(hits);
      colors := c;

      if |hits| > 0 {
        if currentIntersect.None? {
          log := log + [EnterMessage];
        }
        currentIntersect := Some(hits[0]);
      } else {
        if currentIntersect.Some? {
          log := log + [LeaveMessage];
        }
        currentIntersect := None;
      }

      if model.Some? {
        if modelHit {
          model := Some(1.5);
        } else {
          model := Some(1.0);
        }
      }
    }

    /** The window's click listener. */
    method OnClick()
      modifies this
      ensures log == old(log) + (if currentIntersect.Some? then [ClickMessage] else [])
      ensures colors == old(colors) && currentIntersect == old(currentIntersect) && model == old(model)
      ensures heights == old(heights) && lastTime == old(lastTime)
    {
      if currentIntersect.Some? {
        log := log + [ClickMessage];
      }
    }
  }
}
