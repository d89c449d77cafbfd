/** The galaxy generator (galaxy/src/main.ts): `generateGalaxy` disposes the
    previous points object, fills two flat `3 * count` buffers with one
    star per particle, the particles dealt round-robin onto the spiral's
    branches, and adds a fresh points object; most GUI controllers call it
    again when an edit finishes. */
module Galaxy {
  import opened Common

  /** A colour as three.js stores it, channel by channel. */
  datatype Rgb = Rgb(r: real, g: real, b: real)

  /** `THREE.AdditiveBlending`. */
  const AdditiveBlending: int := 2

  /** The `parameters` object (main.ts:22-35). The two colours are held as
      their hex digits divided by 255; the colour-space conversion three.js
      may apply when parsing a hex string is not part of this model. */
  datatype Parameters = Parameters(
    count: nat, size: real, radius: real, sizeAttenuation: bool, depthWrite: bool,
    blending: int, branches: nat, spin: real, randomness: real, randomnessPower: real,
    insideColor: Rgb, outsideColor: Rgb)

  const InsideColor: Rgb := Rgb(0x7f as real / 255.0, 0x39 as real / 255.0, 0xfb as real / 255.0)
  const OutsideColor: Rgb := Rgb(0x08 as real / 255.0, 0xc3 as real / 255.0, 0x09 as real / 255.0)

  const Defaults: Parameters := Parameters(50000, 0.02, 5.0, true, false, AdditiveBlending, 3, 2.0, 0.02, 3.0,
                                           InsideColor, OutsideColor)

  /** What the GUI sliders keep true: at least one branch (the slider's
      minimum is 2) and a positive radius (minimum 0.01). */
  predicate WellFormed(p: Parameters)
  {
    p.branches > 0 && p.radius > 0.0
  }

  /** The library functions a generation draws on: `Math.random` as the
      sequence of its draws, `Math.cos`, `Math.sin` and `Math.pow`. */
  datatype Env = Env(random: nat -> real, cos: real -> real, sin: real -> real, pow: (real, real) -> real)

  /** Each particle takes seven `Math.random()` draws, in this order: its
      radius, then a magnitude and a sign for each of x, y and z. */
  const DrawsPerStar: nat := 7

  function Draw(env: Env, i: nat, k: nat): real
    requires k < DrawsPerStar
  {
    env.random(DrawsPerStar * i + k)
  }

  /** The branch particle `i` is dealt onto. */
  function BranchOf(p: Parameters, i: nat): (b: nat)
    requires WellFormed(p)
    ensures b < p.branches
  {
    i % p.branches
  }

  /** Dealing is periodic: the particle `branches` places on lands on the
      same branch. */
  lemma BranchPeriodic(p: Parameters, i: nat)
    requires WellFormed(p)
    ensures BranchOf(p, i + p.branches) == BranchOf(p, i)
  {
    var B := p.branches;
    DivModUnique(i + B, B, i / B + 1, i % B);
  }

  /** A multiple of a positive number is at least that number when the
      factor is positive, at most its negation when the factor is negative. */
  lemma {:induction false} MulBound(d: int, B: int)
    requires B > 0
    ensures d >= 1 ==> d * B >= B
    ensures d <= -1 ==> d * B <= -B
    decreases if d < 0 then -d else d
  {
    if d > 1 {
      MulBound(d - 1, B);
      assert d * B == (d - 1) * B + B;
    } else if d < -1 {
      MulBound(d + 1, B);
      assert d * B == (d + 1) * B - B;
    }
  }

  /** A quotient and remainder in range are the quotient and remainder. */
  lemma DivModUnique(n: nat, B: nat, q: int, r: nat)
    requires B > 0 && r < B && n == q * B + r
    ensures n / B == q && n % B == r
  {
    var q0, r0 := n / B, n % B;
    assert n == q0 * B + r0;
    MulBound(q0 - q, B);
    assert (q0 - q) * B == q0 * B - q * B;
  }

  function BranchAngle(p: Parameters, i: nat): real
    requires WellFormed(p)
  {
    (BranchOf(p, i) as real / p.branches as real) * PI * 2.0
  }

  /** The random offset along axis `k` (0 for x, 1 for y, 2 for z):
      `pow(random, randomnessPower)` with a random sign. */
  function Offset(p: Parameters, env: Env, i: nat, k: nat): (r: real)
    requires k < 3
    ensures var m := env.pow(Draw(env, i, 2 * k + 1), p.randomnessPower);
      && (r == m || r == -m)
      && (Draw(env, i, 2 * k + 2) < 0.5 ==> r == m)
      && (Draw(env, i, 2 * k + 2) >= 0.5 ==> r == -m)
  {
    env.pow(Draw(env, i, 2 * k + 1), p.randomnessPower) * (if Draw(env, i, 2 * k + 2) < 0.5 then 1.0 else -1.0)
  }

  /** `Color.lerp`: each channel moves the fraction `t` of the way. */
  function Lerp(a: Rgb, b: Rgb, t: real): (c: Rgb)
    ensures t == 0.0 ==> c == a
    ensures t == 1.0 ==> c == b
  {
    Rgb(a.r + (b.r - a.r) * t, a.g + (b.g - a.g) * t, a.b + (b.b - a.b) * t)
  }

  datatype Star = Star(position: Vec3, color: Rgb)

  /** Particle `i`'s distance from the centre. */
  function StarRadius(p: Parameters, env: Env, i: nat): real
  {
    Draw(env, i, 0) * p.radius
  }

  /** Particle `i`'s angle: its branch's, plus the spin its radius gives. */
  function StarAngle(p: Parameters, env: Env, i: nat): real
    requires WellFormed(p)
  {
    BranchAngle(p, i) + StarRadius(p, env, i) * p.spin
  }

  /** A length drawn as a fraction of the radius is that fraction of it. */
  lemma FractionOfRadius(d: real, radius: real)
    requires radius > 0.0
    ensures (d * radius) / radius == d
  {
  }

  /** Particle `i` (main.ts:106-135). Its colour is the inside colour
      moved towards the outside colour by the fraction of the radius that
      its first draw picked. */
  function StarAt(p: Parameters, env: Env, i: nat): (s: Star)
    requires WellFormed(p)
    ensures s.color == Lerp(p.insideColor, p.outsideColor, Draw(env, i, 0))
  {
    Star(Placed(env, StarRadius(p, env, i), StarAngle(p, env, i), Offsets(p, env, i)),
         Lerp(p.insideColor, p.outsideColor, RadiusFraction(p, env, i)))
  }

  /** The point `radius` away from the centre in the direction `angle` of
      the x-z plane, displaced by `offset`. */
  function Placed(env: Env, radius: real, angle: real, offset: Vec3): Vec3
  {
    Vec3(env.cos(angle) * radius + offset.x, offset.y, env.sin(angle) * radius + offset.z)
  }

  /** Particle `i`'s random offsets along x, y and z. */
  function Offsets(p: Parameters, env: Env, i: nat): Vec3
  {
    Vec3(Offset(p, env, i, 0), Offset(p, env, i, 1), Offset(p, env, i, 2))
  }

  /** `radius / parameters.radius`, the colour mix of particle `i`: the
      fraction of the radius its first draw picked. */
  function RadiusFraction(p: Parameters, env: Env, i: nat): (f: real)
    requires WellFormed(p)
    ensures f == Draw(env, i, 0)
  {
    FractionOfRadius(Draw(env, i, 0), p.radius);
    StarRadius(p, env, i) / p.radius
  }

  /** A star drawn at the centre has the inside colour, one drawn at the
      full radius the outside colour. */
  lemma ColorByDistance(p: Parameters, env: Env, i: nat)
    requires WellFormed(p)
    ensures Draw(env, i, 0) == 0.0 ==> StarAt(p, env, i).color == p.insideColor
    ensures Draw(env, i, 0) == 1.0 ==> StarAt(p, env, i).color == p.outsideColor
  {
    var t := Draw(env, i, 0);
    assert StarAt(p, env, i).color == Lerp(p.insideColor, p.outsideColor, t);
  }

  /** The `randomness` parameter takes no part in a star: the offsets are
      `pow(random, randomnessPower)` with a sign and nothing else. */
  lemma RandomnessUnused(p: Parameters, env: Env, i: nat, x: real)
    requires WellFormed(p)
    ensures StarAt(p.(randomness := x), env, i) == StarAt(p, env, i)
  {
    var q := p.(randomness := x);
    assert StarRadius(q, env, i) == StarRadius(p, env, i);
    assert StarAngle(q, env, i) == StarAngle(p, env, i);
    assert Offsets(q, env, i) == Offsets(p, env, i);
  }

  /** The whole galaxy: particle `k` is `StarAt(p, env, k)`. */
  function Layout(p: Parameters, env: Env): (layout: nat -> Star)
    requires WellFormed(p)
    ensures forall k: nat :: layout(k) == StarAt(p, env, k)
  {
    (k: nat) => StarAt(p, env, k)
  }

  function Component(v: Vec3, k: nat): real
    requires k < 3
  {
    if k == 0 then v.x else if k == 1 then v.y else v.z
  }

  function Channel(c: Rgb, k: nat): real
    requires k < 3
  {
    if k == 0 then c.r else if k == 1 then c.g else c.b
  }

  /** Writes one particle's three values into slots `3 * i` to
      `3 * i + 2` of a flat buffer, leaving the slots before them alone. */
  method PutTriple(buffer: array<real>, i: nat, x: real, y: real, z: real)
    requires 3 * i + 3 <= buffer.Length
    modifies buffer
    ensures buffer[3 * i] == x && buffer[3 * i + 1] == y && buffer[3 * i + 2] == z
    ensures forall j :: 0 <= j < 3 * i ==> buffer[j] == old(buffer[j])
  {
    var i3 := i * 3;
    buffer[i3] := x;
    buffer[i3 + 1] := y;
    buffer[i3 + 2] := z;
  }

  /** Fills the two buffers (main.ts:100-135) for `count` particles, the
      particle `k` having values `layout(k)`: particle `k` owns slots `3 * k`
      to `3 * k + 2` of each buffer, which hold its coordinates and its
      colour channels, and the buffers hold nothing else. */
  method FillStars(count: nat, layout: nat -> Star) returns (positions: array<real>, colors: array<real>)
    ensures fresh(positions) && fresh(colors)
    ensures positions.Length == 3 * count && colors.Length == 3 * count
    ensures forall k, c :: 0 <= k < count && 0 <= c < 3 ==> positions[3 * k + c] == Component(layout(k).position, c)
    ensures forall k, c :: 0 <= k < count && 0 <= c < 3 ==> colors[3 * k + c] == Channel(layout(k).color, c)
  {
    positions := new real[3 * count];
    colors := new real[3 * count];
    var i := 0;
    while i < count
      invariant 0 <= i <= count
      invariant forall k, c :: 0 <= k < i && 0 <= c < 3 ==> positions[3 * k + c] == Component(layout(k).position, c)
      invariant forall k, c :: 0 <= k < i && 0 <= c < 3 ==> colors[3 * k + c] == Channel(layout(k).color, c)
    {
      var star := layout(i);
      PutTriple(positions, i, star.position.x, star.position.y, star.position.z);
      PutTriple(colors, i, star.color.r, star.color.g, star.color.b);
      i := i + 1;
    }
  }

  /** How many of the first `n` particles land on branch `b`. */
  function BranchCount(p: Parameters, n: nat, b: nat): nat
    requires WellFormed(p)
  {
    if n == 0 then 0 else BranchCount(p, n - 1, b) + (if BranchOf(p, n - 1) == b then 1 else 0)
  }

  /** How quotient and remainder move from `n - 1` to `n`. */
  lemma DivModStep(n: nat, B: nat)
    requires B > 0 && n > 0
    ensures (n - 1) % B == B - 1 ==> n / B == (n - 1) / B + 1 && n % B == 0
    ensures (n - 1) % B < B - 1 ==> n / B == (n - 1) / B && n % B == (n - 1) % B + 1
  {
    var m := n - 1;
    assert m == (m / B) * B + m % B;
    if m % B == B - 1 {
      assert n == (m / B + 1) * B + 0;
      DivModUnique(n, B, m / B + 1, 0);
    } else {
      DivModUnique(n, B, m / B, m % B + 1);
    }
  }

  /** Each branch gets `n / branches` particles, plus one for the first
      `n % branches` branches. */
  lemma {:induction false} BranchCountFormula(p: Parameters, n: nat, b: nat)
    requires WellFormed(p) && b < p.branches
    ensures BranchCount(p, n, b) == n / p.branches + (if b < n % p.branches then 1 else 0)
  {
    if n > 0 {
      BranchCountFormula(p, n - 1, b);
      DivModStep(n, p.branches);
    }
  }

  /** Round-robin dealing keeps the branches balanced: any two branches'
      counts differ by at most one. */
  lemma BranchesBalanced(p: Parameters, n: nat, b1: nat, b2: nat)
    requires WellFormed(p) && b1 < p.branches && b2 < p.branches
    ensures BranchCount(p, n, b1) <= BranchCount(p, n, b2) + 1
  {
    BranchCountFormula(p, n, b1);
    BranchCountFormula(p, n, b2);
  }

  /** The points geometry, with the two buffers it was given. */
  class StarGeometry {
    const positions: array<real>
    const colors: array<real>
    var disposed: bool

    constructor (positions: array<real>, colors: array<real>)
      ensures this.positions == positions && this.colors == colors && !disposed
    {
      this.positions := positions;
      this.colors := colors;
      disposed := false;
    }
  }

  /** The `PointsMaterial` built from the parameters. */
  class StarMaterial {
    const size: real
    const sizeAttenuation: bool
    const depthWrite: bool
    const blending: int
    const vertexColors: bool
    var disposed: bool

    constructor (p: Parameters)
      ensures size == p.size && sizeAttenuation == p.sizeAttenuation
      ensures depthWrite == p.depthWrite && blending == p.blending
      ensures vertexColors && !disposed
    {
      size := p.size;
      sizeAttenuation := p.sizeAttenuation;
      depthWrite := p.depthWrite;
      blending := p.blending;
      vertexColors := true;
      disposed := false;
    }
  }

  class StarPoints {
    const geometry: StarGeometry
    const material: StarMaterial

    constructor (geometry: StarGeometry, material: StarMaterial)
      ensures this.geometry == geometry && this.material == material
    {
      this.geometry := geometry;
      this.material := material;
    }
  }

  /** The GUI controllers (main.ts:37-83). */
  datatype Field =
    | Count | Size | Radius | SizeAttenuation | DepthWrite | Blending
    | Branches | Spin | Randomness | RandomnessPower | InsideColorField | OutsideColorField

  /** `p` with the field `f` taken from `q`: what a controller bound to `f`
      writes into `parameters`. */
  function Assigned(p: Parameters, f: Field, q: Parameters): Parameters
  {
    match f
    case Count => p.(count := q.count)
    case Size => p.(size := q.size)
    case Radius => p.(radius := q.radius)
    case SizeAttenuation => p.(sizeAttenuation := q.sizeAttenuation)
    case DepthWrite => p.(depthWrite := q.depthWrite)
    case Blending => p.(blending := q.blending)
    case Branches => p.(branches := q.branches)
    case Spin => p.(spin := q.spin)
    case Randomness => p.(randomness := q.randomness)
    case RandomnessPower => p.(randomnessPower := q.randomnessPower)
    case InsideColorField => p.(insideColor := q.insideColor)
    case OutsideColorField => p.(outsideColor := q.outsideColor)
  }

  /** `q` differs from `p` at most in the field `f`. */
  predicate OnlyChanged(p: Parameters, q: Parameters, f: Field)
  {
    q == Assigned(p, f, q)
  }

  /** The two colour controllers are added without a handler; every other
      controller regenerates on finish-change. */
  predicate Regenerates(f: Field)
  {
    !(f.InsideColorField? || f.OutsideColorField?)
  }

  /** The script's `geometry`, `material` and `points` variables and the
      points objects in the scene. */
  class GalaxyDemo {
    var parameters: Parameters
    var geometry: Option<StarGeometry>
    var material: Option<StarMaterial>
    var points: Option<StarPoints>
    var scene: seq<StarPoints>

    /** Exactly the current points object is in the scene, made of the
        current geometry and material, neither of them disposed. */
    ghost predicate Valid()
      reads this, if geometry.Some? then {geometry.value} else {}, if material.Some? then {material.value} else {}
    {
      && WellFormed(parameters)
      && (points.Some? <==> geometry.Some?) && (points.Some? <==> material.Some?)
      && scene == (if points.Some? then [points.value] else [])
      && (points.Some? ==>
            points.value.geometry == geometry.value && points.value.material == material.value
            && !geometry.value.disposed && !material.value.disposed)
    }

    /** The script before its first `generateGalaxy()` call. */
    constructor ()
      ensures Valid() && parameters == Defaults
      ensures geometry == None && material == None && points == None && scene == []
    {
      parameters := Defaults;
      geometry := None;
      material := None;
      points := None;
      scene := [];
    }

    /** `generateGalaxy` (main.ts:92-150). */
    method GenerateGalaxy(env: Env)
      requires Valid()
      modifies this, if geometry.Some? then {geometry.value} else {}, if material.Some? then {material.value} else {}
      ensures Valid() && parameters == old(parameters)
      ensures old(points).Some? ==> old(geometry).value.disposed && old(material).value.disposed
      ensures points.Some? && fresh(points.value) && fresh(geometry.value) && fresh(material.value)
      ensures scene == [points.value]
      ensures points.value !in old(scene)
      ensures var g := geometry.value;
        && fresh(g.positions) && fresh(g.colors)
        && g.positions.Length == 3 * parameters.count && g.colors.Length == 3 * parameters.count
        && (forall k, c :: 0 <= k < parameters.count && 0 <= c < 3 ==>
              g.positions[3 * k + c] == Component(Layout(parameters, env)(k).position, c))
        && (forall k, c :: 0 <= k < parameters.count && 0 <= c < 3 ==>
              g.colors[3 * k + c] == Channel(Layout(parameters, env)(k).color, c))
      ensures var m := material.value;
        m.size == parameters.size && m.sizeAttenuation == parameters.sizeAttenuation
        && m.depthWrite == parameters.depthWrite && m.blending == parameters.blending && m.vertexColors
    {
      if points.Some? {
        if geometry.Some? {
          geometry.value.disposed := true;
        }
        if material.Some? {
          material.value.disposed := true;
        }
        scene := Without(scene, points.value);
      }
      var positions, colors := FillStars(parameters.count, Layout(parameters, env));
      var g := new StarGeometry(positions, colors);
      var m := new StarMaterial(parameters);
      var pts := new StarPoints(g, m);
      geometry, material, points := Some(g), Some(m), Some(pts);
      scene := scene + [pts];
    }

    /** A GUI edit of `field` that leaves the parameters at `edited`, which
        differs from the old parameters in that field only: the galaxy is
        rebuilt unless the field is one of the two colours, which then only
        take effect at the next rebuild. */
    method Edit(field: Field, edited: Parameters, env: Env)
      requires Valid() && WellFormed(edited) && OnlyChanged(parameters, edited, field)
      modifies this, if geometry.Some? then {geometry.value} else {}, if material.Some? then {material.value} else {}
      ensures Valid() && parameters == edited
      ensures !Regenerates(field) ==>
        geometry == old(geometry) && material == old(material) && points == old(points) && scene == old(scene)
      ensures Regenerates(field) ==> points.Some? && fresh(points.value) && scene == [points.value]
      ensures Regenerates(field) && old(points).Some? ==>
        old(geometry).value.disposed && old(material).value.disposed
      ensures Regenerates(field) ==> var g := geometry.value;
        && fresh(g.positions) && fresh(g.colors)
        && g.positions.Length == 3 * edited.count && g.colors.Length == 3 * edited.count
        && (forall k, c :: 0 <= k < edited.count && 0 <= c < 3 ==>
              g.positions[3 * k + c] == Component(Layout(edited, env)(k).position, c))
        && (forall k, c :: 0 <= k < edited.count && 0 <= c < 3 ==>
              g.colors[3 * k + c] == Channel(Layout(edited, env)(k).color, c))
      ensures Regenerates(field) ==> var m := material.value;
        m.size == edited.size && m.sizeAttenuation == edited.sizeAttenuation
        && m.depthWrite == edited.depthWrite && m.blending == edited.blending && m.vertexColors
    {
      parameters := edited;
      if Regenerates(field) {
        GenerateGalaxy(env);
      }
    }
  }
}
