/** The shader gallery (shaders/src/main.ts): six debug-panel folders, one
    per shader; opening a folder closes the others and, when its title
    differs from the last one handled, resets the mesh and its material to
    defaults and installs that folder's shader, uniforms and per-frame hook.

    Geometry objects carry an identity (`id`) so that disposal and the
    module-level plane can be told apart from equal-looking new planes. */
module Shaders {
  import opened Common

  /** The six folders, in the order of `gui.folders`. */
  datatype Mode = Texture | Gradient | Noise | Water | Smoke | Hologram

  const Folders: seq<Mode> := [Texture, Gradient, Noise, Water, Smoke, Hologram]

  /** The title of the root panel, which fires the handler as well. */
  const RootTitle: string := "Open a folder to create shader"

  function Title(m: Mode): string
  {
    match m
    case Texture => "Waving Texture"
    case Gradient => "Gradient"
    case Noise => "Noise"
    case Water => "Water"
    case Smoke => "Smoke"
    case Hologram => "Hologram"
  }

  /** The folder a title belongs to, if any (the `switch (name)`). */
  function ModeOf(t: string): (r: Option<Mode>)
    ensures r.Some? ==> Title(r.value) == t
    ensures r.None? ==> forall m: Mode :: Title(m) != t
  {
    if t == "Waving Texture" then Some(Texture)
    else if t == "Gradient" then Some(Gradient)
    else if t == "Noise" then Some(Noise)
    else if t == "Water" then Some(Water)
    else if t == "Smoke" then Some(Smoke)
    else if t == "Hologram" then Some(Hologram)
    else None
  }

  function FolderIndex(m: Mode): (i: nat)
    ensures i < |Folders| && Folders[i] == m
  {
    match m
    case Texture => 0
    case Gradient => 1
    case Noise => 2
    case Water => 3
    case Smoke => 4
    case Hologram => 5
  }

  /** Titles are a round trip through `ModeOf`, so each title names exactly
      one position of `gui.folders`. */
  lemma TitleNamesOneFolder(m: Mode, i: nat)
    requires i < |Folders|
    ensures ModeOf(Title(m)) == Some(m)
    ensures Title(Folders[i]) == Title(m) <==> i == FolderIndex(m)
  {
    assert ModeOf(Title(Folders[i])) == Some(Folders[i]);
  }

  datatype Side = FrontSide | DoubleSide
  datatype Blending = NormalBlending | AdditiveBlending

  /** The geometry constructors the gallery uses, with their arguments. */
  datatype Shape =
    | Plane(width: real, height: real, widthSegments: nat, heightSegments: nat)
    | TorusKnot(radius: real, tube: real, tubularSegments: nat, radialSegments: nat)
    | Sphere
    | Cone(coneRadius: real, coneHeight: real)

  /** A geometry object: its identity and how it was built. */
  datatype GeometryObject = GeometryObject(id: nat, shape: Shape)

  /** The module-level `PlaneGeometry(1, 1)` that the mesh starts with. */
  const BaseGeometry: GeometryObject := GeometryObject(0, Plane(1.0, 1.0, 1, 1))

  /** `geometry.attributes.position.count` of a plane. */
  function PlaneVertexCount(s: Shape): nat
    requires s.Plane?
  {
    (s.widthSegments + 1) * (s.heightSegments + 1)
  }

  datatype Uniform =
    | Number(n: real)
    | Vector2(x: real, y: real)
    | ColorHex(hex: string)
    | Sampler(texture: string)

  /** Which vertex/fragment shader pair the material holds. */
  datatype Program = DefaultProgram | ProgramOf(mode: Mode)

  /** `onTickUpdateShader`: a no-op, the `uTime` writer, or the hologram's
      spinning `uTime` writer. */
  datatype Hook = NoHook | TimeHook | SpinHook

  /** A value of `debugObject`: a colour or geometry name, or an option index. */
  datatype DebugValue = Text(s: string) | Choice(n: int)

  /** What the mesh, its material and the tick hook look like. */
  datatype Look = Look(
    geometry: GeometryObject,
    uniforms: map<string, Uniform>,
    program: Program,
    side: Side,
    depthWrite: bool,
    blending: Blending,
    rotation: Vec3,
    scale: Vec3,
    hook: Hook)

  /** The whole handler-visible state of the demo. */
  datatype Gallery = Gallery(
    open: seq<bool>,              // per folder of `Folders`: is it open
    controls: seq<nat>,           // per folder: `children.length`
    name: string,
    lastName: string,
    look: Look,
    baseRandoms: seq<real>,       // `aRandom` of the module-level plane
    disposed: seq<GeometryObject>,
    nextId: nat,                  // identity of the next geometry built
    debug: map<string, DebugValue>,
    log: seq<string>,
    needsUpdate: bool)

  const TextureUniforms: map<string, Uniform> :=
    map["uFrequency" := Vector2(10.0, 5.0), "uTime" := Number(0.0),
        "uTexture" := Sampler("/textures/cat.jpg")]

  const WaterUniforms: map<string, Uniform> :=
    map["uTime" := Number(0.0),
        "uDepthColor" := ColorHex("#3f78d5"),
        "uSurfaceColor" := ColorHex("#a3d2f0"),
        "uColorOffset" := Number(0.1),
        "uColorMultiplier" := Number(2.5),
        "uBigWavesElevation" := Number(0.2),
        "uBigWavesFrequency" := Vector2(4.0, 1.5),
        "uBigWavesSpeed" := Number(0.75),
        "uSmallWavesElevation" := Number(0.15),
        "uSmallWavesFrequency" := Number(3.0),
        "uSmallWavesSpeed" := Number(0.2),
        "uSmallWavesIteration" := Number(3.0)]

  const SmokeUniforms: map<string, Uniform> :=
    map["uTime" := Number(0.0),
        "uPerlinTexture" := Sampler("/textures/perlin.png"),
        "uSmokeColor" := ColorHex("#3f78d5")]

  const HologramUniforms: map<string, Uniform> :=
    map["uTime" := Number(0.0),
        "uFresnelIntensity" := Number(2.0),
        "uLowerFalloff" := Number(0.8),
        "uUpperFalloff" := Number(0.0),
        "uHologramColor" := ColorHex("#23c55e"),
        "uHolographicPower" := Number(1.25),
        "uGlitchStrength" := Number(0.25)]

  /** How many controls a folder's one-time registration block adds. */
  function ControlCount(m: Mode): nat
  {
    match m
    case Texture => 2
    case Gradient => 0
    case Noise => 0
    case Water => 12
    case Smoke => 2
    case Hologram => 7
  }

  /** The state the gallery starts in (before `smokeFolder.open()`). */
  const Initial: Gallery :=
    Gallery([false, false, false, false, false, false], [0, 0, 0, 0, 0, 0], "", "",
            Look(BaseGeometry, map[], DefaultProgram, FrontSide, true, NormalBlending,
                 Origin, UnitScale, NoHook),
            [], [], 1, map[], [], false)

  /** A hook may only be installed while the material has a `uTime`
      uniform, which every hook writes. */
  predicate HookReady(l: Look)
  {
    l.hook != NoHook ==> "uTime" in l.uniforms
  }

  predicate Shaped(g: Gallery)
  {
    |g.open| == |Folders| && |g.controls| == |Folders|
  }

  /** What every reachable state satisfies. */
  predicate WellFormed(g: Gallery)
  {
    && Shaped(g)
    && (forall i :: 0 <= i < |Folders| ==> g.controls[i] == 0 || g.controls[i] == ControlCount(Folders[i]))
    && HookReady(g.look)
    && g.look.geometry.id < g.nextId
    && (g.look.geometry == BaseGeometry || BaseGeometry in g.disposed)
  }

  /** Folder flags after `folder.close()` on every folder not titled `t`. */
  function ClosedOthers(open: seq<bool>, t: string): seq<bool>
    requires |open| == |Folders|
  {
    seq(|Folders|, i requires 0 <= i < |Folders| => open[i] && Title(Folders[i]) == t)
  }

  /** The loop over `gui.folders` closing every folder but the one titled `t`. */
  method CloseOthers(open: seq<bool>, t: string) returns (r: seq<bool>)
    requires |open| == |Folders|
    ensures |r| == |Folders|
    ensures forall i :: 0 <= i < |Folders| && Title(Folders[i]) != t ==> !r[i]
    ensures forall i :: 0 <= i < |Folders| && Title(Folders[i]) == t ==> r[i] == open[i]
  {
    r := open;
    var i := 0;
    while i < |Folders|
      invariant 0 <= i <= |Folders| && |r| == |Folders|
      invariant forall k :: 0 <= k < i ==> r[k] == (open[k] && Title(Folders[k]) == t)
      invariant forall k :: i <= k < |Folders| ==> r[k] == open[k]
    {
      if Title(Folders[i]) != t {
        r := r[i := false];
      }
      i := i + 1;
    }
  }

  /** The two properties `CloseOthers` ensures pin its result down to
      `ClosedOthers`. */
  lemma ClosedOthersUnique(open: seq<bool>, t: string, r: seq<bool>)
    requires |open| == |Folders| && |r| == |Folders|
    requires forall i :: 0 <= i < |Folders| && Title(Folders[i]) != t ==> !r[i]
    requires forall i :: 0 <= i < |Folders| && Title(Folders[i]) == t ==> r[i] == open[i]
    ensures r == ClosedOthers(open, t)
  {
    assert forall i :: 0 <= i < |Folders| ==> r[i] == ClosedOthers(open, t)[i];
  }

  /** `Math.random()` drawn `count` times, the i-th draw being `random(i)`. */
  function RandomValues(count: nat, random: nat -> real): seq<real>
  {
    seq(count, i requires 0 <= i => random(i))
  }

  /** The Float32Array of `aRandom` values the texture shader reads. */
  method RandomAttribute(count: nat, random: nat -> real) returns (a: array<real>)
    ensures a.Length == count
    ensures forall i :: 0 <= i < count ==> a[i] == random(i)
  {
    a := new real[count];
    var i := 0;
    while i < count
      invariant 0 <= i <= count
      invariant forall k :: 0 <= k < i ==> a[k] == random(k)
    {
      a[i] := random(i);
      i := i + 1;
    }
  }

  /** `mesh.geometry.dispose(); mesh.geometry = new ...(s)`. */
  function Swapped(g: Gallery, s: Shape): (r: Gallery)
    ensures r.disposed == g.disposed + [g.look.geometry]
    ensures r.look.geometry == GeometryObject(g.nextId, s) && r.nextId == g.nextId + 1
  {
    g.(look := g.look.(geometry := GeometryObject(g.nextId, s)),
       disposed := g.disposed + [g.look.geometry], nextId := g.nextId + 1)
  }

  /** The material, transform and hook defaults of the reset (main.ts:78-86). */
  function Defaults(l: Look): Look
  {
    l.(uniforms := map[], side := FrontSide, depthWrite := true, blending := NormalBlending,
       rotation := Origin, scale := UnitScale, hook := NoHook)
  }

  /** The geometry a mode builds over the reset plane, if any. */
  function ModeShape(m: Option<Mode>): Option<Shape>
  {
    match m
    case Some(Water) => Some(Plane(2.0, 2.0, 512, 512))
    case Some(Smoke) => Some(Plane(1.0, 1.0, 16, 64))
    case Some(Hologram) => Some(TorusKnot(0.6, 0.25, 128, 32))
    case _ => None
  }

  /** The mode-specific material, transform and hook settings: every folder
      installs its own shader pair; the four animated folders install a
      `uTime` uniform and a hook; Gradient, Noise and an unknown title leave
      uniforms, hook, side, depth writing, blending and transform alone. */
  function Configure(l: Look, m: Option<Mode>): (r: Look)
    ensures r.geometry == l.geometry
    ensures m.Some? ==> r.program == ProgramOf(m.value)
    ensures m in {Some(Texture), Some(Water), Some(Smoke), Some(Hologram)} ==>
      r.hook != NoHook && "uTime" in r.uniforms
    ensures m in {None, Some(Gradient), Some(Noise)} ==>
      r == l.(program := r.program)
    ensures m.None? ==> r == l
  {
    match m
    case None => l
    case Some(Texture) =>
      l.(program := ProgramOf(Texture), uniforms := TextureUniforms, hook := TimeHook)
    case Some(Gradient) => l.(program := ProgramOf(Gradient))
    case Some(Noise) => l.(program := ProgramOf(Noise))
    case Some(Water) =>
      l.(rotation := l.rotation.(x := -PI * 0.5),
         program := ProgramOf(Water), uniforms := WaterUniforms, hook := TimeHook)
    case Some(Smoke) =>
      l.(scale := Vec3(0.75, 3.0, 0.75),
         program := ProgramOf(Smoke), uniforms := SmokeUniforms,
         side := DoubleSide, depthWrite := false, hook := TimeHook)
    case Some(Hologram) =>
      l.(program := ProgramOf(Hologram),
         side := DoubleSide, depthWrite := false, blending := AdditiveBlending,
         uniforms := HologramUniforms, hook := SpinHook)
  }

  /** The one-time control registration, guarded by `children.length`. */
  function Registered(controls: seq<nat>, m: Option<Mode>): seq<nat>
    requires |controls| == |Folders|
  {
    match m
    case None => controls
    case Some(mode) =>
      var i := FolderIndex(mode);
      if ControlCount(mode) > 0 && controls[i] == 0 then controls[i := ControlCount(mode)]
      else controls
  }

  /** The `debugObject` fields a mode initialises. */
  function DebugAfter(d: map<string, DebugValue>, m: Option<Mode>): map<string, DebugValue>
  {
    match m
    case Some(Water) => d["depthColor" := Text("#3f78d5")]["surfaceColor" := Text("#a3d2f0")]
    case Some(Smoke) => d["smokeColor" := Text("#3f78d5")]
    case Some(Hologram) => d["hologramColor" := Text("#23c55e")]["geometry" := Text("TorusKnot")]
    case _ => d
  }

  /** The reset to defaults (main.ts:75-86): the old geometry is disposed
      and replaced by a fresh 32x32-segment plane; uniforms, side, depth
      writing, blending, rotation, scale and hook go back to their defaults;
      the shader pair and everything outside the look stay. */
  function ResetGallery(g: Gallery): (r: Gallery)
    ensures r.disposed == g.disposed + [g.look.geometry] && r.nextId == g.nextId + 1
    ensures r.look.geometry == GeometryObject(g.nextId, Plane(1.0, 1.0, 32, 32))
    ensures r.look.uniforms == map[] && r.look.hook == NoHook && r.look.side == FrontSide
    ensures r.look.depthWrite && r.look.blending == NormalBlending
    ensures r.look.rotation == Origin && r.look.scale == UnitScale
    ensures r.look.program == g.look.program
    ensures r.(look := g.look, disposed := g.disposed, nextId := g.nextId) == g
  {
    var g' := Swapped(g, Plane(1.0, 1.0, 32, 32));
    g'.(look := Defaults(g'.look))
  }

  /** The `switch (name)` of a rebuild (main.ts:88-351): Water, Smoke and
      Hologram dispose the reset plane for their own geometry, the others
      keep it; only the texture folder draws `aRandom`; only an unknown title
      logs; a folder's controls are added only while it has none; the folder
      flags and the handler's names are not touched. */
  function SetupGallery(g: Gallery, m: Option<Mode>, random: nat -> real): (r: Gallery)
    requires Shaped(g)
    ensures Shaped(r) && r.open == g.open && r.name == g.name && r.lastName == g.lastName
    ensures r.needsUpdate == g.needsUpdate
    ensures ModeShape(m).Some? ==>
      r.look.geometry == GeometryObject(g.nextId, ModeShape(m).value) && r.disposed == g.disposed + [g.look.geometry]
    ensures ModeShape(m).None? ==> r.look.geometry == g.look.geometry && r.disposed == g.disposed
    ensures m != Some(Texture) ==> r.baseRandoms == g.baseRandoms
    ensures |r.log| == |g.log| + (if m.None? then 1 else 0) && r.log[..|g.log|] == g.log
    ensures forall i :: 0 <= i < |Folders| && r.controls[i] != g.controls[i] ==>
      g.controls[i] == 0 && m == Some(Folders[i])
  {
    var g' := if ModeShape(m).Some? then Swapped(g, ModeShape(m).value) else g;
    g'.(look := Configure(g'.look, m),
        baseRandoms := if m == Some(Texture) then RandomValues(PlaneVertexCount(BaseGeometry.shape), random)
                       else g.baseRandoms,
        controls := Registered(g.controls, m),
        debug := DebugAfter(g.debug, m),
        log := g.log + (if m.None? then ["Select a folder"] else []))
  }

  /** The `gui.onOpenClose` handler for a panel titled `t`: afterwards at
      most the folder titled `t` is open and `t` is both `name` and
      `lastName`; a repeated title leaves the look, the controls and the log
      alone, and a new title disposes the current geometry and marks the
      material for recompilation. */
  function Switched(g: Gallery, t: string, random: nat -> real): (r: Gallery)
    requires Shaped(g)
    ensures Shaped(r) && r.name == t && r.lastName == t
    ensures forall i :: 0 <= i < |Folders| && r.open[i] ==> Title(Folders[i]) == t
    ensures t == g.lastName ==> r.look == g.look && r.controls == g.controls && r.log == g.log
    ensures t != g.lastName ==> r.needsUpdate && g.look.geometry in r.disposed && r.look.geometry.id >= g.nextId
  {
    var closed := g.(name := t, open := ClosedOthers(g.open, t));
    if t == g.lastName then closed
    else SetupGallery(ResetGallery(closed), ModeOf(t), random).(lastName := t, needsUpdate := true)
  }

  /** A folder opened or closed by the user: lil-gui fires the handler only
      when the flag actually changes, and then the folder keeps the flag it
      was given while every other folder is closed. */
  function FolderToggled(g: Gallery, m: Mode, opening: bool, random: nat -> real): (r: Gallery)
    requires Shaped(g)
    ensures Shaped(r)
    ensures g.open[FolderIndex(m)] == opening ==> r == g
    ensures g.open[FolderIndex(m)] != opening ==>
      && r.open[FolderIndex(m)] == opening && r.lastName == Title(m)
      && forall i :: 0 <= i < |Folders| && i != FolderIndex(m) ==> !r.open[i]
  {
    var i := FolderIndex(m);
    assert forall j :: 0 <= j < |Folders| && j != i ==> Title(Folders[j]) != Title(m) by {
      forall j | 0 <= j < |Folders| && j != i ensures Title(Folders[j]) != Title(m) {
        TitleNamesOneFolder(m, j);
      }
    }
    if g.open[i] == opening then g
    else
      var g' := g.(open := g.open[i := opening]);
      SwitchedKeepsTitled(g', m, random);
      Switched(g', Title(m), random)
  }

  /** The folder titled by the switch keeps its flag through `Switched`. */
  lemma SwitchedKeepsTitled(g: Gallery, m: Mode, random: nat -> real)
    requires Shaped(g)
    ensures Switched(g, Title(m), random).open[FolderIndex(m)] == g.open[FolderIndex(m)]
  {
    var t := Title(m);
    var closed := g.(name := t, open := ClosedOthers(g.open, t));
    assert closed.open[FolderIndex(m)] == g.open[FolderIndex(m)];
    if t != g.lastName {
      var r := SetupGallery(ResetGallery(closed), ModeOf(t), random);
      assert r.open == closed.open;
    }
  }

  /** One frame's call of `onTickUpdateShader(elapsedTime)`: only the
      uniform values and the rotation may change, no uniform is added or
      removed, and an installed hook leaves `uTime` at the elapsed time. */
  function ApplyHook(l: Look, elapsed: real): (r: Look)
    requires HookReady(l)
    ensures r == l.(uniforms := r.uniforms, rotation := r.rotation)
    ensures r.uniforms.Keys == l.uniforms.Keys && HookReady(r)
    ensures l.hook != NoHook ==> r.uniforms["uTime"] == Number(elapsed)
    ensures l.hook != SpinHook ==> r.rotation == l.rotation
  {
    match l.hook
    case NoHook => l
    case TimeHook => l.(uniforms := l.uniforms["uTime" := Number(elapsed)])
    case SpinHook =>
      l.(rotation := l.rotation.(x := elapsed * 0.1, z := elapsed * 0.1),
         uniforms := l.uniforms["uTime" := Number(elapsed)])
  }

  /** The shape the hologram geometry option installs, if any. */
  function OptionShape(value: int): Option<Shape>
  {
    if value == 0 then Some(TorusKnot(0.6, 0.25, 128, 32))
    else if value == 1 then Some(Sphere)
    else if value == 2 then Some(Cone(1.0, 1.0))
    else None
  }

  /** The hologram folder's geometry option changed to `value`: the old
      geometry is disposed whatever the value, the option is recorded in
      `debugObject.geometry`, and nothing but the geometry of the look
      changes. */
  function GeometryChosen(g: Gallery, value: int): (r: Gallery)
    ensures r.disposed == g.disposed + [g.look.geometry]
    ensures r.debug == g.debug["geometry" := Choice(value)]
    ensures r.look.(geometry := g.look.geometry) == g.look
    ensures r.(look := g.look, disposed := g.disposed, debug := g.debug, nextId := g.nextId) == g
  {
    var g' := g.(debug := g.debug["geometry" := Choice(value)]);
    match OptionShape(value)
    case None => g'.(disposed := g.disposed + [g.look.geometry])
    case Some(s) => Swapped(g', s)
  }

  /** A sequence of handler calls. */
  function Run(g: Gallery, titles: seq<string>, random: nat -> real): (r: Gallery)
    requires Shaped(g)
    ensures Shaped(r)
    decreases |titles|
  {
    if titles == [] then g else Run(Switched(g, titles[0], random), titles[1..], random)
  }

  // ---------------------------------------------------------------------
  // Properties of the handler

  /** After an event titled `t`, every other folder is closed, and the
      folder titled `t` keeps its flag. */
  lemma OthersClosed(g: Gallery, t: string, random: nat -> real)
    requires Shaped(g)
    ensures forall i :: 0 <= i < |Folders| && Title(Folders[i]) != t ==> !Switched(g, t, random).open[i]
    ensures forall i :: 0 <= i < |Folders| && Title(Folders[i]) == t ==> Switched(g, t, random).open[i] == g.open[i]
    ensures Switched(g, t, random).lastName == t
  {
  }

  /** A repeated title changes nothing but the folder flags and `name`. */
  lemma RepeatedTitleIsNoOp(g: Gallery, t: string, random: nat -> real)
    requires Shaped(g) && t == g.lastName
    ensures Switched(g, t, random) == g.(name := t, open := ClosedOthers(g.open, t))
  {
  }

  /** A rebuild configures the defaults over the fresh geometry: the look
      before `Configure` is all defaults, keeps the old shader pair and
      holds the reset plane or the mode's own geometry. */
  lemma SwitchedLook(g: Gallery, t: string, random: nat -> real) returns (base: Look)
    requires Shaped(g) && t != g.lastName
    ensures Switched(g, t, random).look == Configure(base, ModeOf(t))
    ensures base == Defaults(base) && base.program == g.look.program
    ensures ModeShape(ModeOf(t)).Some? ==>
      base.geometry == GeometryObject(g.nextId + 1, ModeShape(ModeOf(t)).value)
    ensures ModeShape(ModeOf(t)).None? ==>
      base.geometry == GeometryObject(g.nextId, Plane(1.0, 1.0, 32, 32))
  {
    var m := ModeOf(t);
    var reset := ResetGallery(g.(name := t, open := ClosedOthers(g.open, t)));
    var g' := if ModeShape(m).Some? then Swapped(reset, ModeShape(m).value) else reset;
    base := g'.look;
    assert SetupGallery(reset, m, random).look == Configure(base, m);
  }

  /** Every rebuild starts from the defaults: for a folder's title the
      resulting look does not depend on the look before the event. */
  lemma RebuildForgetsPrevious(g1: Gallery, g2: Gallery, t: string, random: nat -> real)
    requires Shaped(g1) && Shaped(g2)
    requires t != g1.lastName && t != g2.lastName && g1.nextId == g2.nextId
    requires ModeOf(t).Some?
    ensures Switched(g1, t, random).look == Switched(g2, t, random).look
  {
    var b1 := SwitchedLook(g1, t, random);
    var b2 := SwitchedLook(g2, t, random);
    assert b1.(program := b2.program) == b2;
  }

  /** Gradient, Noise and unknown titles keep the reset defaults; only the
      shader pair changes, or, for an unknown title, a log line is added. */
  lemma PlainModesKeepDefaults(g: Gallery, t: string, random: nat -> real)
    requires Shaped(g) && t != g.lastName
    requires ModeOf(t) in {None, Some(Gradient), Some(Noise)}
    ensures var l := Switched(g, t, random).look;
      && l.uniforms == map[] && l.hook == NoHook
      && l.side == FrontSide && l.depthWrite && l.blending == NormalBlending
      && l.rotation == Origin && l.scale == UnitScale
      && l.geometry == GeometryObject(g.nextId, Plane(1.0, 1.0, 32, 32))
      && l.program == (if ModeOf(t).None? then g.look.program else ProgramOf(ModeOf(t).value))
    ensures Switched(g, t, random).log == g.log + (if ModeOf(t).None? then ["Select a folder"] else [])
  {
  }

  /** Only Smoke and Hologram override the material defaults. */
  lemma OnlySmokeAndHologramOverride(g: Gallery, t: string, random: nat -> real)
    requires Shaped(g) && t != g.lastName
    ensures var l := Switched(g, t, random).look;
      && (l.side == DoubleSide <==> ModeOf(t) in {Some(Smoke), Some(Hologram)})
      && (!l.depthWrite <==> ModeOf(t) in {Some(Smoke), Some(Hologram)})
      && (l.blending == AdditiveBlending <==> ModeOf(t) == Some(Hologram))
      && (l.scale != UnitScale <==> ModeOf(t) == Some(Smoke))
      && (ModeOf(t) == Some(Smoke) ==> l.scale == Vec3(0.75, 3.0, 0.75))
  {
    var base := SwitchedLook(g, t, random);
  }

  /** Texture, Water, Smoke and Hologram install a hook, and only they;
      the hook always finds a `uTime` uniform to write. */
  lemma HookModes(g: Gallery, t: string, random: nat -> real)
    requires Shaped(g) && t != g.lastName
    ensures var l := Switched(g, t, random).look;
      && (l.hook != NoHook <==> ModeOf(t) in {Some(Texture), Some(Water), Some(Smoke), Some(Hologram)})
      && (l.hook == SpinHook <==> ModeOf(t) == Some(Hologram))
      && HookReady(l)
  {
  }

  /** Each frame, an installed hook writes the elapsed time to `uTime`,
      and the hologram hook also turns the mesh about x and z. */
  lemma TickWritesTime(l: Look, elapsed: real)
    requires HookReady(l) && l.hook != NoHook
    ensures ApplyHook(l, elapsed).uniforms == l.uniforms["uTime" := Number(elapsed)]
    ensures l.hook == SpinHook ==> ApplyHook(l, elapsed).rotation == Vec3(elapsed * 0.1, l.rotation.y, elapsed * 0.1)
    ensures l.hook == TimeHook ==> ApplyHook(l, elapsed).rotation == l.rotation
  {
  }

  /** The texture mode writes `aRandom` (one value per vertex of the
      1x1-segment plane) to the module-level plane, which by then has been
      disposed and is not the mesh's geometry any more. */
  lemma TextureWritesBasePlane(g: Gallery, t: string, random: nat -> real)
    requires WellFormed(g) && t != g.lastName && ModeOf(t) == Some(Texture)
    ensures var r := Switched(g, t, random);
      && r.baseRandoms == RandomValues(4, random)
      && r.look.geometry != BaseGeometry
      && BaseGeometry in r.disposed
  {
  }

  /** Every handler call keeps the state well formed. */
  lemma SwitchedWellFormed(g: Gallery, t: string, random: nat -> real)
    requires WellFormed(g)
    ensures WellFormed(Switched(g, t, random))
  {
    if t != g.lastName {
      var r := Switched(g, t, random);
      var m := ModeOf(t);
      forall i | 0 <= i < |Folders|
        ensures r.controls[i] == 0 || r.controls[i] == ControlCount(Folders[i])
      {
        if m.Some? && i == FolderIndex(m.value) {
        }
      }
    }
  }

  /** Controls are added at most once: over any sequence of events, a
      folder holds either none of its controls or exactly one set of them,
      and a folder that already had its controls keeps them unchanged. */
  lemma {:induction false} ControlsAddedOnce(g: Gallery, titles: seq<string>, random: nat -> real)
    requires WellFormed(g)
    ensures WellFormed(Run(g, titles, random))
    ensures forall i :: 0 <= i < |Folders| && g.controls[i] != 0 ==> Run(g, titles, random).controls[i] == g.controls[i]
    decreases |titles|
  {
    if titles != [] {
      var g' := Switched(g, titles[0], random);
      SwitchedWellFormed(g, titles[0], random);
      assert forall i :: 0 <= i < |Folders| && g.controls[i] != 0 ==> g'.controls[i] == g.controls[i];
      ControlsAddedOnce(g', titles[1..], random);
    }
  }

  /** The root panel's title names no folder: opening or closing the root
      panel closes every folder and, when it is a new title, leaves the
      reset defaults with the "Select a folder" log line. */
  lemma RootTitleClosesAll(g: Gallery, random: nat -> real)
    requires Shaped(g)
    ensures ModeOf(RootTitle).None?
    ensures forall i :: 0 <= i < |Folders| ==> !Switched(g, RootTitle, random).open[i]
    ensures RootTitle != g.lastName ==>
      && Switched(g, RootTitle, random).look.hook == NoHook
      && Switched(g, RootTitle, random).look.uniforms == map[]
      && Switched(g, RootTitle, random).log == g.log + ["Select a folder"]
  {
    assert RootTitle[0] == 'O';
  }

  /** The start-up call `smokeFolder.open()` shows the smoke shader with
      only the smoke folder open. */
  lemma StartupShowsSmoke(random: nat -> real)
    ensures var g := FolderToggled(Initial, Smoke, true, random);
      && g.open == [false, false, false, false, true, false]
      && g.lastName == "Smoke"
      && g.look.program == ProgramOf(Smoke)
      && g.look.side == DoubleSide && !g.look.depthWrite
      && g.controls == [0, 0, 0, 0, 2, 0]
  {
  }

  /** The geometry option disposes the old geometry first and then maps
      0, 1, 2 to torus knot, sphere and cone. */
  lemma GeometryOptionMapping(g: Gallery, value: int)
    ensures GeometryChosen(g, value).disposed == g.disposed + [g.look.geometry]
    ensures 0 <= value <= 2 ==> GeometryChosen(g, value).look.geometry.id == g.nextId
    ensures value == 0 ==> GeometryChosen(g, value).look.geometry.shape.TorusKnot?
    ensures value == 1 ==> GeometryChosen(g, value).look.geometry.shape == Sphere
    ensures value == 2 ==> GeometryChosen(g, value).look.geometry.shape == Cone(1.0, 1.0)
    ensures !(0 <= value <= 2) ==> GeometryChosen(g, value).look == g.look
  {
  }

  // ---------------------------------------------------------------------
  // The objects the handler mutates

  class Mesh {
    var geometry: GeometryObject
    var rotation: Vec3
    var scale: Vec3

    constructor (g: GeometryObject)
      ensures geometry == g && rotation == Origin && scale == UnitScale
    {
      geometry := g;
      rotation := Origin;
      scale := UnitScale;
    }
  }

  class ShaderMaterial {
    var uniforms: map<string, Uniform>
    var program: Program
    var side: Side
    var depthWrite: bool
    var blending: Blending
    var needsUpdate: bool

    constructor ()
      ensures uniforms == map[] && program == DefaultProgram && side == FrontSide
      ensures depthWrite && blending == NormalBlending && !needsUpdate
    {
      uniforms := map[];
      program := DefaultProgram;
      side := FrontSide;
      depthWrite := true;
      blending := NormalBlending;
      needsUpdate := false;
    }
  }

  /** The script's module-level state: the mesh, its material, the folder
      flags and the handler's bookkeeping. */
  class ShaderGallery {
    const mesh: Mesh
    const material: ShaderMaterial
    var open: seq<bool>
    var controls: seq<nat>
    var name: string
    var lastName: string
    var hook: Hook
    var baseRandoms: seq<real>
    var disposed: seq<GeometryObject>
    var nextId: nat
    var debug: map<string, DebugValue>
    var log: seq<string>

    ghost function State(): Gallery
      reads this, mesh, material
    {
      Gallery(open, controls, name, lastName,
              Look(mesh.geometry, material.uniforms, material.program, material.side,
                   material.depthWrite, material.blending, mesh.rotation, mesh.scale, hook),
              baseRandoms, disposed, nextId, debug, log, material.needsUpdate)
    }

    ghost predicate Valid()
      reads this, mesh, material
    {
      WellFormed(State())
    }

    constructor ()
      ensures Valid() && State() == Initial
    {
      mesh := new Mesh(BaseGeometry);
      material := new ShaderMaterial();
      open := [false, false, false, false, false, false];
      controls := [0, 0, 0, 0, 0, 0];
      name, lastName := "", "";
      hook := NoHook;
      baseRandoms, disposed, nextId := [], [], 1;
      debug, log := map[], [];
    }

    /** `gui.onOpenClose((changedGUI) => ...)` for a panel titled `t`;
        `random(i)` is the i-th `Math.random()` of the texture setup. */
    method OnOpenClose(t: string, random: nat -> real)
      requires Valid()
      modifies this, mesh, material
      ensures Valid()
      ensures State() == Switched(old(State()), t, random)
    {
      ghost var g := State();
      SwitchedWellFormed(g, t, random);
      name := t;
      open := CloseOthers(open, name);
      ClosedOthersUnique(g.open, t, open);
      if name != lastName {
        Rebuild(random);
      }
    }

    /** main.ts:73-356 for a title other than the last one: dispose and
        reset, set up the chosen folder's shader, and remember the title. */
    method Rebuild(random: nat -> real)
      requires Shaped(State())
      modifies this, mesh, material
      ensures State() == SetupGallery(ResetGallery(old(State())), ModeOf(old(name)), random).(lastName := old(name), needsUpdate := true)
    {
      ResetDefaults();
      SetupMode(ModeOf(name), random);
      material.needsUpdate := true;
      lastName := name;
    }

    /** `mesh.geometry.dispose(); mesh.geometry = new ...(shape)`. */
    method SwapGeometry(shape: Shape)
      modifies this, mesh
      ensures State() == Swapped(old(State()), shape)
    {
      disposed := disposed + [mesh.geometry];
      mesh.geometry := GeometryObject(nextId, shape);
      nextId := nextId + 1;
    }

    /** main.ts:75-86: a fresh plane, and the material, transform and hook
        back to their defaults. */
    method ResetDefaults()
      modifies this, mesh, material
      ensures State() == ResetGallery(old(State()))
    {
      SwapGeometry(Plane(1.0, 1.0, 32, 32));
      material.uniforms := map[];
      material.side := FrontSide;
      material.depthWrite := true;
      material.blending := NormalBlending;
      mesh.rotation := Origin;
      mesh.scale := UnitScale;
      hook := NoHook;
    }

    /** The `switch (name)` of main.ts:88-351. */
    method SetupMode(m: Option<Mode>, random: nat -> real)
      requires Shaped(State())
      modifies this, mesh, material
      ensures State() == SetupGallery(old(State()), m, random)
    {
      match m {
        case Some(Texture) =>
          SetupTexture(random);
        case Some(Gradient) =>
          material.program := ProgramOf(Gradient);
        case Some(Noise) =>
          material.program := ProgramOf(Noise);
        case Some(Water) =>
          SetupReshaped(Water, random);
        case Some(Smoke) =>
          SetupReshaped(Smoke, random);
        case Some(Hologram) =>
          SetupReshaped(Hologram, random);
        case None =>
          log := log + ["Select a folder"];
      }
    }

    /** The texture folder's branch, main.ts:89-125. */
    method SetupTexture(random: nat -> real)
      requires Shaped(State())
      modifies this, mesh, material
      ensures State() == SetupGallery(old(State()), Some(Texture), random)
    {
      var randoms := RandomAttribute(PlaneVertexCount(BaseGeometry.shape), random);
      baseRandoms := randoms[..];
      assert baseRandoms == RandomValues(4, random);
      material.program := ProgramOf(Texture);
      material.uniforms := TextureUniforms;
      controls := Registered(controls, Some(Texture));
      hook := TimeHook;
    }

    /** The branches that replace the plane before configuring the material:
        water, smoke and hologram. */
    method SetupReshaped(m: Mode, random: nat -> real)
      requires Shaped(State()) && ModeShape(Some(m)).Some?
      modifies this, mesh, material
      ensures State() == SetupGallery(old(State()), Some(m), random)
    {
      SwapGeometry(ModeShape(Some(m)).value);
      match m {
        case Water => ConfigureWater();
        case Smoke => ConfigureSmoke();
        case Hologram => ConfigureHologram();
      }
    }

    /** main.ts:137-240 after the new plane. */
    method ConfigureWater()
      requires Shaped(State())
      modifies this, mesh, material
      ensures var g := old(State());
        State() == g.(look := Configure(g.look, Some(Water)), controls := Registered(g.controls, Some(Water)),
                      debug := DebugAfter(g.debug, Some(Water)))
    {
      mesh.rotation := mesh.rotation.(x := -PI * 0.5);
      material.program := ProgramOf(Water);
      debug := DebugAfter(debug, Some(Water));
      material.uniforms := WaterUniforms;
      controls := Registered(controls, Some(Water));
      hook := TimeHook;
    }

    /** main.ts:245-270 after the new plane. */
    method ConfigureSmoke()
      requires Shaped(State())
      modifies this, mesh, material
      ensures var g := old(State());
        State() == g.(look := Configure(g.look, Some(Smoke)), controls := Registered(g.controls, Some(Smoke)),
                      debug := DebugAfter(g.debug, Some(Smoke)))
    {
      mesh.scale := Vec3(0.75, 3.0, 0.75);
      material.program := ProgramOf(Smoke);
      debug := DebugAfter(debug, Some(Smoke));
      material.uniforms := SmokeUniforms;
      material.side := DoubleSide;
      material.depthWrite := false;
      controls := Registered(controls, Some(Smoke));
      hook := TimeHook;
    }

    /** main.ts:275-347 after the torus knot. */
    method ConfigureHologram()
      requires Shaped(State())
      modifies this, mesh, material
      ensures var g := old(State());
        State() == g.(look := Configure(g.look, Some(Hologram)), controls := Registered(g.controls, Some(Hologram)),
                      debug := DebugAfter(g.debug, Some(Hologram)))
    {
      material.program := ProgramOf(Hologram);
      material.side := DoubleSide;
      material.depthWrite := false;
      material.blending := AdditiveBlending;
      debug := DebugAfter(debug, Some(Hologram));
      material.uniforms := HologramUniforms;
      controls := Registered(controls, Some(Hologram));
      hook := SpinHook;
    }

    /** A user (or `smokeFolder.open()` at start-up) opens or closes folder `m`. */
    method SetFolderOpen(m: Mode, opening: bool, random: nat -> real)
      requires Valid()
      modifies this, mesh, material
      ensures Valid()
      ensures State() == FolderToggled(old(State()), m, opening, random)
    {
      var i := FolderIndex(m);
      if open[i] != opening {
        open := open[i := opening];
        OnOpenClose(Title(m), random);
      }
    }

    /** The `tick` call `onTickUpdateShader(elapsedTime)`. */
    method Tick(elapsed: real)
      requires Valid()
      modifies mesh, material
      ensures Valid()
      ensures State() == old(State()).(look := ApplyHook(old(State()).look, elapsed))
    {
      match hook {
        case NoHook =>
        case TimeHook =>
          material.uniforms := material.uniforms["uTime" := Number(elapsed)];
        case SpinHook =>
          mesh.rotation := mesh.rotation.(x := elapsed * 0.1);
          mesh.rotation := mesh.rotation.(z := elapsed * 0.1);
          material.uniforms := material.uniforms["uTime" := Number(elapsed)];
      }
    }

    /** The hologram folder's geometry option `onChange(value)`; the
        control exists once the hologram folder has registered its controls. */
    method OnGeometryOption(value: int)
      requires Valid() && controls[FolderIndex(Hologram)] != 0
      modifies this, mesh
      ensures Valid()
      ensures State() == GeometryChosen(old(State()), value)
    {
      debug := debug["geometry" := Choice(value)];
      if value == 0 {
        SwapGeometry(TorusKnot(0.6, 0.25, 128, 32));
      } else if value == 1 {
        SwapGeometry(Sphere);
      } else if value == 2 {
        SwapGeometry(Cone(1.0, 1.0));
      } else {
        disposed := disposed + [mesh.geometry];
      }
    }
  }
}
