/** The particle cloud (particles/src/main.ts): 5000 points whose position
    and colour buffers are filled at random once, after which every frame
    rewrites the y coordinate of each point, in place, from its own x. */
module Particles {

  /** `count`. */
  const Count: nat := 5000

  /** The value the fill loop puts in slot `j` of the position buffer
      (main.ts:32-34; the loop draws twice per slot, first for the position,
      then for the colour). A draw in [0, 1) puts the coordinate in [-5, 5),
      a draw of one half at the centre. */
  function InitialPosition(random: nat -> real, j: nat): (x: real)
    ensures 0.0 <= random(2 * j) < 1.0 ==> -5.0 <= x < 5.0
    ensures random(2 * j) == 0.5 ==> x == 0.0
  {
    (random(2 * j) - 0.5) * 10.0
  }

  /** A colour draw in [0, 1) gives a channel in [0, 1). */
  function InitialColor(random: nat -> real, j: nat): (c: real)
    ensures 0.0 <= random(2 * j + 1) < 1.0 ==> 0.0 <= c < 1.0
  {
    random(2 * j + 1)
  }

  /** The fill loop: every slot of both `3 * count` buffers is written. */
  method FillParticles(random: nat -> real) returns (positions: array<real>, colors: array<real>)
    ensures fresh(positions) && fresh(colors) && positions != colors
    ensures positions.Length == 3 * Count && colors.Length == 3 * Count
    ensures forall j :: 0 <= j < 3 * Count ==> positions[j] == InitialPosition(random, j)
    ensures forall j :: 0 <= j < 3 * Count ==> colors[j] == InitialColor(random, j)
  {
    positions := new real[3 * Count];
    colors := new real[3 * Count];
    var i := 0;
    while i < 3 * Count
      invariant 0 <= i <= 3 * Count
      invariant forall j :: 0 <= j < i ==> positions[j] == InitialPosition(random, j)
      invariant forall j :: 0 <= j < i ==> colors[j] == InitialColor(random, j)
    {
      positions[i] := (random(2 * i) - 0.5) * 10.0;
      colors[i] := random(2 * i + 1);
      i := i + 1;
    }
  }

  /** The position buffer after one frame at `elapsed` seconds: the y slot
      `3 * k + 1` of every point becomes `sin(elapsed + x)` for the point's
      own x in slot `3 * k`; every other slot keeps its value. */
  function Wave(s: seq<real>, elapsed: real, sin: real -> real): (r: seq<real>)
    ensures |r| == |s|
    ensures forall j :: 0 <= j < |s| && j % 3 != 1 ==> r[j] == s[j]
    ensures forall j :: 0 <= j < |s| && j % 3 == 1 ==> r[j] == sin(elapsed + s[j - 1])
  {
    seq(|s|, j requires 0 <= j < |s| => if j % 3 == 1 then sin(elapsed + s[j - 1]) else s[j])
  }

  /** The frame's effect, point by point: x and z kept, y rewritten from x. */
  lemma WaveSlots(s: seq<real>, elapsed: real, sin: real -> real, k: nat)
    requires 3 * k + 3 <= |s|
    ensures |Wave(s, elapsed, sin)| == |s|
    ensures Wave(s, elapsed, sin)[3 * k] == s[3 * k]
    ensures Wave(s, elapsed, sin)[3 * k + 1] == sin(elapsed + s[3 * k])
    ensures Wave(s, elapsed, sin)[3 * k + 2] == s[3 * k + 2]
  {
    assert (3 * k) % 3 == 0 && (3 * k + 1) % 3 == 1 && (3 * k + 2) % 3 == 2;
  }

  /** No point's new y depends on any y, or on another point: two buffers
      that agree on every x and z slot agree after the frame. */
  lemma WaveIgnoresY(s: seq<real>, s': seq<real>, elapsed: real, sin: real -> real)
    requires |s| == |s'|
    requires forall j :: 0 <= j < |s| && j % 3 != 1 ==> s[j] == s'[j]
    ensures Wave(s, elapsed, sin) == Wave(s', elapsed, sin)
  {
    var w, w' := Wave(s, elapsed, sin), Wave(s', elapsed, sin);
    forall j | 0 <= j < |s| ensures w[j] == w'[j] {
      if j % 3 == 1 {
        assert (j - 1) % 3 == 0;
        assert s[j - 1] == s'[j - 1];
      } else {
        assert s[j] == s'[j];
      }
    }
    assert |w| == |w'|;
  }

  /** Running a frame twice at the same time changes nothing more: the
      frame never writes the x slots it reads. */
  lemma WaveIdempotent(s: seq<real>, elapsed: real, sin: real -> real)
    ensures Wave(Wave(s, elapsed, sin), elapsed, sin) == Wave(s, elapsed, sin)
  {
    var w := Wave(s, elapsed, sin);
    forall j | 0 <= j < |s| && j % 3 != 1 ensures w[j] == s[j] {
    }
    WaveIgnoresY(w, s, elapsed, sin);
  }

  /** The buffer part way through the frame loop: points `0 .. i - 1` done. */
  ghost function WaveUpTo(s: seq<real>, elapsed: real, sin: real -> real, i: nat): (r: seq<real>)
    ensures |r| == |s|
  {
    seq(|s|, j requires 0 <= j < |s| => if j < 3 * i && j % 3 == 1 then sin(elapsed + s[j - 1]) else s[j])
  }

  /** One more iteration rewrites exactly point `i`'s y, from its untouched x. */
  lemma WaveUpToStep(s: seq<real>, elapsed: real, sin: real -> real, i: nat)
    requires 3 * i + 3 <= |s|
    ensures WaveUpTo(s, elapsed, sin, i)[3 * i] == s[3 * i]
    ensures WaveUpTo(s, elapsed, sin, i + 1) == WaveUpTo(s, elapsed, sin, i)[3 * i + 1 := sin(elapsed + s[3 * i])]
  {
    var a := WaveUpTo(s, elapsed, sin, i);
    var b := WaveUpTo(s, elapsed, sin, i + 1);
    forall j | 0 <= j < |s| ensures b[j] == a[3 * i + 1 := sin(elapsed + s[3 * i])][j] {
      if 3 * i <= j < 3 * i + 3 {
        assert j == 3 * i || j == 3 * i + 1 || j == 3 * i + 2;
        assert (3 * i) % 3 == 0 && (3 * i + 1) % 3 == 1 && (3 * i + 2) % 3 == 2;
      }
    }
  }

  /** After every point, the partial buffer is the whole frame. */
  lemma WaveUpToAll(s: seq<real>, elapsed: real, sin: real -> real)
    requires |s| == 3 * Count
    ensures WaveUpTo(s, elapsed, sin, Count) == Wave(s, elapsed, sin)
  {
  }

  /** The geometry's position attribute and colour attribute. */
  class ParticleGeometry {
    const positions: array<real>
    const colors: array<real>
    var needsUpdate: bool       // position.needsUpdate

    constructor (positions: array<real>, colors: array<real>)
      ensures this.positions == positions && this.colors == colors && !needsUpdate
    {
      this.positions := positions;
      this.colors := colors;
      needsUpdate := false;
    }

    ghost predicate Valid()
      reads this
    {
      positions.Length == 3 * Count && colors.Length == 3 * Count && positions != colors
    }

    /** The per-frame loop of `tick` (main.ts:130-139), in place. */
    method Tick(elapsed: real, sin: real -> real)
      requires Valid()
      modifies this, positions
      ensures Valid()
      ensures positions[..] == Wave(old(positions[..]), elapsed, sin)
      ensures needsUpdate
    {
      ghost var before := positions[..];
      var i := 0;
      while i < Count
        invariant 0 <= i <= Count
        invariant positions[..] == WaveUpTo(before, elapsed, sin, i)
      {
        var i3 := i * 3;
        WaveUpToStep(before, elapsed, sin, i);
        var x := positions[i3];
        positions[i3 + 1] := sin(elapsed + x);
        i := i + 1;
      }
      WaveUpToAll(before, elapsed, sin);
      needsUpdate := true;
    }
  }

  /** The script's set-up: the filled buffers go into one geometry. */
  method Setup(random: nat -> real) returns (g: ParticleGeometry)
    ensures fresh(g) && fresh(g.positions) && fresh(g.colors) && g.Valid()
    ensures forall j :: 0 <= j < 3 * Count ==> g.positions[j] == InitialPosition(random, j)
    ensures forall j :: 0 <= j < 3 * Count ==> g.colors[j] == InitialColor(random, j)
  {
    var positions, colors := FillParticles(random);
    g := new ParticleGeometry(positions, colors);
  }
}
