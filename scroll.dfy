/** The scroll-driven page (scroll/src/main.ts): three meshes stacked one
    `objectDistance` apart, a scroll listener that rounds the scroll offset
    to a section index and starts a spin tween on that section's mesh when
    the index changes, and a frame loop that turns every mesh and keeps the
    camera at the height that matches the scroll offset. */
module Scroll {
  import opened Common
  import Clock

  /** `parameters.objectDistance`. */
  const ObjectDistance: real := 4.0

  /** `section.children.length`: torus, torus knot and cone. */
  const SectionCount: nat := 3

  /** Where section mesh `k` sits (main.ts:44-58). */
  function SectionPosition(k: nat): (p: Vec3)
    requires k < SectionCount
    ensures p.y == -ObjectDistance * k as real
    ensures p.z == 0.0 && (p.x == 2.0 <==> k != 1) && (p.x == -2.0 <==> k == 1)
  {
    if k == 0 then Vec3(2.0, 0.0, 0.0)
    else if k == 1 then Vec3(-2.0, -ObjectDistance * 1.0, 0.0)
    else Vec3(2.0, -ObjectDistance * 2.0, 0.0)
  }

  /** `Math.round(scrollY / sizes.height)`: the section the viewport shows. */
  function SectionIndex(scrollY: real, height: real): (k: int)
    requires height > 0.0
    ensures k as real - 0.5 <= scrollY / height < k as real + 0.5
  {
    Round(scrollY / height)
  }

  /** `camera.position.y` for a scroll offset (main.ts:185): the camera
      descends `objectDistance` for every viewport height scrolled, so it
      is never above the first section while the offset is not negative. */
  function CameraY(scrollY: real, height: real): (y: real)
    requires height > 0.0
    ensures y * height == -ObjectDistance * scrollY
    ensures scrollY >= 0.0 ==> y <= 0.0
  {
    (-scrollY / height) * ObjectDistance
  }

  /** Scrolled exactly to the top of section `k`, the index is `k`. */
  lemma SectionAtMultiple(k: int, height: real)
    requires height > 0.0
    ensures SectionIndex(k as real * height, height) == k
  {
    assert (k as real * height) / height == k as real;
  }

  /** Scrolled exactly to the top of section `k`, the camera is level with
      that section's mesh. */
  lemma CameraLevelWithSection(k: nat, height: real)
    requires height > 0.0 && k < SectionCount
    ensures CameraY(k as real * height, height) == SectionPosition(k).y
  {
    assert (-(k as real * height)) / height == -(k as real);
  }

  /** One `gsap.to(mesh.rotation, { duration: 1.5, x: "+=6", y: "+=3" })`. */
  datatype Tween = Tween(target: nat, dx: real, dy: real, duration: real)

  function SpinTween(k: nat): Tween
  {
    Tween(k, 6.0, 3.0, 1.5)
  }

  /** What the scroll listener reads and writes. */
  datatype ScrollState = ScrollState(scrollY: real, height: real, current: int, tweens: seq<Tween>)

  predicate WellFormed(s: ScrollState)
  {
    s.height > 0.0 && forall i :: 0 <= i < |s.tweens| ==> s.tweens[i].target < SectionCount
  }

  /** The listener's result: the new state, and whether it threw, which it
      does when the new index names no child, since `.rotation` is then read
      from `undefined` after `currentSection` has already been set. */
  datatype Outcome = Outcome(state: ScrollState, threw: bool)

  /** The scroll listener (main.ts:143-155) for a new `window.scrollY`: the
      offset is recorded, the current section becomes the rounded index, and
      at most one spin tween, on the mesh of that index, is added; a
      listener that throws adds none. */
  function Scrolled(s: ScrollState, y: real): (o: Outcome)
    requires s.height > 0.0
    ensures o.state.scrollY == y && o.state.height == s.height
    ensures o.state.current == SectionIndex(y, s.height)
    ensures o.state.tweens == s.tweens
      || (0 <= o.state.current < SectionCount && o.state.tweens == s.tweens + [SpinTween(o.state.current)])
    ensures o.threw ==> o.state.tweens == s.tweens
  {
    var k := SectionIndex(y, s.height);
    var s' := s.(scrollY := y);
    if k == s.current then Outcome(s', false)
    else if 0 <= k < SectionCount then Outcome(s'.(current := k, tweens := s.tweens + [SpinTween(k)]), false)
    else Outcome(s'.(current := k), true)
  }

  /** After a scroll event the current section is the rounded index, a tween
      starts iff that index differs from the previous one and names a mesh,
      and it targets exactly that mesh; nothing throws for an index in
      range. */
  lemma ScrollSpec(s: ScrollState, y: real)
    requires WellFormed(s)
    ensures var o := Scrolled(s, y); var k := SectionIndex(y, s.height);
      && WellFormed(o.state)
      && o.state.current == k && o.state.scrollY == y && o.state.height == s.height
      && (o.state.tweens != s.tweens <==> k != s.current && 0 <= k < SectionCount)
      && (o.state.tweens != s.tweens ==> o.state.tweens == s.tweens + [Tween(k, 6.0, 3.0, 1.5)])
      && (o.threw <==> k != s.current && !(0 <= k < SectionCount))
  {
    var o := Scrolled(s, y);
    if o.state.tweens != s.tweens {
      assert |o.state.tweens| == |s.tweens| + 1;
    }
  }

  /** The listener over a run of scroll events. A listener that throws
      keeps the state it had reached, and later events still fire. */
  function ScrollRun(s: ScrollState, ys: seq<real>): ScrollState
    requires s.height > 0.0
    decreases |ys|
  {
    if ys == [] then s
    else
      var o := Scrolled(s, ys[0]);
      ScrollRun(o.state, ys[1..])
  }

  /** Scroll events that all stay within the current section start no
      tween, however many there are. */
  lemma {:induction false} SameSectionStartsNoTween(s: ScrollState, ys: seq<real>)
    requires s.height > 0.0
    requires forall i :: 0 <= i < |ys| ==> SectionIndex(ys[i], s.height) == s.current
    ensures ScrollRun(s, ys).tweens == s.tweens && ScrollRun(s, ys).current == s.current
    decreases |ys|
  {
    if ys != [] {
      var o := Scrolled(s, ys[0]);
      assert o.state == s.(scrollY := ys[0]);
      assert forall i :: 0 <= i < |ys[1..]| ==> ys[1..][i] == ys[i + 1];
      SameSectionStartsNoTween(o.state, ys[1..]);
    }
  }

  /** Every tween of any run targets one of the three meshes, and a run
      never starts more tweens than it has events. */
  lemma {:induction false} RunTweensInRange(s: ScrollState, ys: seq<real>)
    requires WellFormed(s)
    ensures WellFormed(ScrollRun(s, ys))
    ensures |s.tweens| <= |ScrollRun(s, ys).tweens| <= |s.tweens| + |ys|
    ensures ScrollRun(s, ys).tweens[..|s.tweens|] == s.tweens
    decreases |ys|
  {
    if ys != [] {
      var o := Scrolled(s, ys[0]);
      ScrollSpec(s, ys[0]);
      RunTweensInRange(o.state, ys[1..]);
      var r := ScrollRun(o.state, ys[1..]);
      assert r.tweens[..|s.tweens|] == r.tweens[..|o.state.tweens|][..|s.tweens|];
    }
  }

  /** The page's state. `rotations[k]` is section mesh `k`'s rotation about
      x and y; tweens are recorded as started, their easing is not modelled. */
  class ScrollPage {
    var scrollY: real
    var height: real               // sizes.height
    var currentSection: int
    var tweens: seq<Tween>
    var rotations: seq<(real, real)>
    var cameraY: real
    var lastTime: real
    ghost var readings: seq<real>

    ghost function State(): ScrollState
      reads this
    {
      ScrollState(scrollY, height, currentSection, tweens)
    }

    ghost predicate Valid()
      reads this
    {
      WellFormed(State()) && |rotations| == SectionCount && lastTime == Clock.LastTime(0.0, readings)
    }

    /** The page at load, scrolled to `initialScrollY` in a window
        `windowHeight` high: `currentSection` starts at 0 whatever the
        initial offset. */
    constructor (initialScrollY: real, windowHeight: real)
      requires windowHeight > 0.0
      ensures Valid()
      ensures State() == ScrollState(initialScrollY, windowHeight, 0, [])
      ensures rotations == [(0.0, 0.0), (0.0, 0.0), (0.0, 0.0)] && lastTime == 0.0
    {
      scrollY := initialScrollY;
      height := windowHeight;
      currentSection := 0;
      tweens := [];
      rotations := [(0.0, 0.0), (0.0, 0.0), (0.0, 0.0)];
      cameraY := 0.0;
      lastTime := 0.0;
      readings := [];
    }

    /** The scroll listener; `threw` reports the TypeError of an index
        outside the three sections. */
    method OnScroll(y: real) returns (threw: bool)
      requires Valid()
      modifies this
      ensures Valid()
      ensures State() == Scrolled(old(State()), y).state && threw == Scrolled(old(State()), y).threw
      ensures rotations == old(rotations) && cameraY == old(cameraY) && lastTime == old(lastTime)
    {
      ScrollSpec(State(), y);
      scrollY := y;
      var newSection := Round(scrollY / height);
      threw := false;
      if newSection != currentSection {
        currentSection := newSection;
        if 0 <= currentSection < SectionCount {
          tweens := tweens + [Tween(currentSection, 6.0, 3.0, 1.5)];
        } else {
          threw := true;
        }
      }
    }

    /** The resize listener's effect on what the model tracks. */
    method OnResize(windowHeight: real)
      requires Valid() && windowHeight > 0.0
      modifies this
      ensures Valid() && State() == old(State()).(height := windowHeight)
      ensures rotations == old(rotations) && cameraY == old(cameraY) && lastTime == old(lastTime)
    {
      height := windowHeight;
    }

    /** One `tick` at clock reading `elapsed` (main.ts:173-185). */
    method Tick(elapsed: real)
      requires Valid()
      modifies this
      ensures Valid() && State() == old(State())
      ensures lastTime == elapsed
      ensures |rotations| == SectionCount
      ensures forall k :: 0 <= k < SectionCount ==>
        rotations[k] == (old(rotations[k]).0 + (elapsed - old(lastTime)) * 0.1,
                         old(rotations[k]).1 + (elapsed - old(lastTime)) * 0.13)
      ensures cameraY == CameraY(scrollY, height)
    {
      var deltaTime := elapsed - lastTime;
      lastTime := elapsed;
      readings := readings + [elapsed];
      var r := rotations;
      var i := 0;
      while i < |r|
        invariant 0 <= i <= |r| == SectionCount
        invariant forall k :: 0 <= k < i ==> r[k] == (rotations[k].0 + deltaTime * 0.1, rotations[k].1 + deltaTime * 0.13)
        invariant forall k :: i <= k < |r| ==> r[k] == rotations[k]
      {
        r := r[i := (r[i].0 + deltaTime * 0.1, r[i].1 + deltaTime * 0.13)];
        i := i + 1;
      }
      rotations := r;
      cameraY := (-scrollY / height) * ObjectDistance;
    }
  }
}
