/** The physics demo (physics/src/main.ts): spheres and boxes are created as
    a three.js mesh paired with a cannon-es body, tracked in two lists,
    removed again by `reset`, and every frame each mesh is moved onto its
    body. A collision on a tracked body plays the hit sound when the impact
    is strong enough. The physics step itself is library code: the bodies'
    new positions and rotations are whatever the caller has left in them. */
module Physics {
  import opened Common
  import Clock

  /** A cannon-es collision shape. */
  datatype Shape = SphereShape(radius: real) | BoxShape(halfExtents: Vec3) | PlaneShape

  /** The two shared three.js geometries a tracked mesh can use. */
  datatype Geometry = UnitSphere | UnitBox | FloorPlane

  /** A cannon-es body. `listening` says whether `playHitSound` is attached
      as its "collide" listener. */
  class Body {
    var mass: real
    var shape: Shape
    var position: Vec3
    var quaternion: Quaternion
    var listening: bool

    constructor (mass: real, shape: Shape, position: Vec3)
      ensures this.mass == mass && this.shape == shape && this.position == position
      ensures quaternion == IdentityRotation && !listening
    {
      this.mass := mass;
      this.shape := shape;
      this.position := position;
      quaternion := IdentityRotation;
      listening := false;
    }
  }

  /** A three.js mesh with the transform the demo touches. */
  class Mesh {
    const geometry: Geometry
    var position: Vec3
    var quaternion: Quaternion
    var scale: Vec3

    constructor (geometry: Geometry)
      ensures this.geometry == geometry
      ensures position == Origin && quaternion == IdentityRotation && scale == UnitScale
    {
      this.geometry := geometry;
      position := Origin;
      quaternion := IdentityRotation;
      scale := UnitScale;
    }
  }

  /** One `{ mesh, body }` record of `sphereObjects` or `boxObjects`. */
  datatype Tracked = Tracked(mesh: Mesh, body: Body)

  /** One `hitSound.play()`: the volume it played at and the playback
      position it started from. */
  datatype Playback = Playback(volume: real, startTime: real)

  /** The `Audio` object of the hit sound. */
  class HitSound {
    var volume: real
    var currentTime: real
    var plays: seq<Playback>

    constructor ()
      ensures volume == 1.0 && currentTime == 0.0 && plays == []
    {
      volume := 1.0;
      currentTime := 0.0;
      plays := [];
    }

    /** `playHitSound` (main.ts:8-15). `impact` is the contact's impact
        velocity along the normal, `random` the `Math.random()` draw. */
    method PlayHit(impact: real, random: real)
      modifies this
      ensures impact > 1.5 ==>
        volume == random && currentTime == 0.0 && plays == old(plays) + [Playback(random, 0.0)]
      ensures impact <= 1.5 ==>
        volume == old(volume) && currentTime == old(currentTime) && plays == old(plays)
    {
      if impact > 1.5 {
        volume := random;
        currentTime := 0.0;
        plays := plays + [Playback(volume, currentTime)];
      }
    }
  }

  // ---------------------------------------------------------------------
  // Sequences used as the world's body list and the scene's child list

  predicate NoDups<T(==)>(s: seq<T>)
  {
    forall i, j :: 0 <= i < j < |s| ==> s[i] != s[j]
  }

  function Elems<T>(s: seq<T>): set<T>
  {
    set x | x in s
  }

  lemma NoDupsCons<T>(h: T, t: seq<T>)
    ensures NoDups([h] + t) <==> h !in t && NoDups(t)
  {
    var c := [h] + t;
    if NoDups(c) {
      forall i, j | 0 <= i < j < |t| ensures t[i] != t[j] {
        assert t[i] == c[i + 1] && t[j] == c[j + 1];
      }
      forall k | 0 <= k < |t| ensures t[k] != h {
        assert c[0] == h && t[k] == c[k + 1];
      }
    }
    if h !in t && NoDups(t) {
      forall i, j | 0 <= i < j < |c| ensures c[i] != c[j] {
        assert c[j] == t[j - 1];
        if i > 0 { assert c[i] == t[i - 1]; }
      }
    }
  }

  /** Removing an element from a duplicate-free list keeps it
      duplicate-free and removes exactly that element. */
  lemma {:induction false} WithoutRemoves<T>(s: seq<T>, x: T)
    requires NoDups(s)
    ensures NoDups(Without(s, x))
    ensures Elems(Without(s, x)) == Elems(s) - {x}
    decreases |s|
  {
    if s != [] {
      assert s == [s[0]] + s[1..];
      NoDupsCons(s[0], s[1..]);
      assert Elems(s) == {s[0]} + Elems(s[1..]);
      if s[0] != x {
        WithoutRemoves(s[1..], x);
        var r := Without(s[1..], x);
        assert Without(s, x) == [s[0]] + r;
        assert s[0] !in Elems(r);
        NoDupsCons(s[0], r);
        assert Elems([s[0]] + r) == {s[0]} + Elems(r);
      }
    }
  }

  /** The bodies and the meshes of a list of records. */
  function Bodies(objs: seq<Tracked>): set<Body>
  {
    set i | 0 <= i < |objs| :: objs[i].body
  }

  function Meshes(objs: seq<Tracked>): set<Mesh>
  {
    set i | 0 <= i < |objs| :: objs[i].mesh
  }

  /** No two records share a mesh or a body. */
  predicate Distinct(objs: seq<Tracked>)
  {
    forall i, j :: 0 <= i < j < |objs| ==> objs[i].mesh != objs[j].mesh && objs[i].body != objs[j].body
  }

  lemma BodiesAppend(a: seq<Tracked>, b: seq<Tracked>)
    ensures Bodies(a + b) == Bodies(a) + Bodies(b)
    ensures Meshes(a + b) == Meshes(a) + Meshes(b)
  {
    forall o | o in Bodies(a) ensures o in Bodies(a + b) {
      var i :| 0 <= i < |a| && a[i].body == o;
      assert (a + b)[i].body == o;
    }
    forall o | o in Meshes(a) ensures o in Meshes(a + b) {
      var i :| 0 <= i < |a| && a[i].mesh == o;
      assert (a + b)[i].mesh == o;
    }
    forall o | o in Bodies(a + b) ensures o in Bodies(a) + Bodies(b) {
      var i :| 0 <= i < |a + b| && (a + b)[i].body == o;
      if i >= |a| { assert b[i - |a|].body == o; }
    }
    forall o | o in Bodies(b) ensures o in Bodies(a + b) {
      var i :| 0 <= i < |b| && b[i].body == o;
      assert (a + b)[|a| + i].body == o;
    }
    forall o | o in Meshes(a + b) ensures o in Meshes(a) + Meshes(b) {
      var i :| 0 <= i < |a + b| && (a + b)[i].mesh == o;
      if i >= |a| { assert b[i - |a|].mesh == o; }
    }
    forall o | o in Meshes(b) ensures o in Meshes(a + b) {
      var i :| 0 <= i < |b| && b[i].mesh == o;
      assert (a + b)[|a| + i].mesh == o;
    }
  }

  /** A record with a mesh and a body no other record has can join a
      list of records anywhere and keep it `Distinct`. */
  lemma DistinctInsert(a: seq<Tracked>, o: Tracked, b: seq<Tracked>)
    requires Distinct(a + b) && o.mesh !in Meshes(a + b) && o.body !in Bodies(a + b)
    ensures Distinct(a + [o] + b)
    ensures Bodies(a + [o] + b) == Bodies(a + b) + {o.body}
    ensures Meshes(a + [o] + b) == Meshes(a + b) + {o.mesh}
  {
    var ab, c := a + b, a + [o] + b;
    forall i, j | 0 <= i < j < |c|
      ensures c[i].mesh != c[j].mesh && c[i].body != c[j].body
    {
      if i == |a| {
        assert c[j] == ab[j - 1];
      } else if j == |a| {
        assert c[i] == ab[i];
      } else {
        var i', j' := if i < |a| then i else i - 1, if j < |a| then j else j - 1;
        assert c[i] == ab[i'] && c[j] == ab[j'];
      }
    }
    BodiesAppend(a, b);
    BodiesAppend(a + [o], b);
    BodiesAppend(a, [o]);
    assert [o][0] == o;
    assert Bodies([o]) == {o.body} && Meshes([o]) == {o.mesh};
  }

  /** Records of two lists with no shared mesh have disjoint mesh sets. */
  lemma DistinctSplit(a: seq<Tracked>, b: seq<Tracked>)
    requires Distinct(a + b)
    ensures Distinct(a) && Distinct(b)
    ensures Meshes(a) !! Meshes(b) && Bodies(a) !! Bodies(b)
  {
    var c := a + b;
    forall i, j | 0 <= i < j < |a| ensures a[i].mesh != a[j].mesh && a[i].body != a[j].body {
      assert c[i] == a[i] && c[j] == a[j];
    }
    forall i, j | 0 <= i < j < |b| ensures b[i].mesh != b[j].mesh && b[i].body != b[j].body {
      assert c[|a| + i] == b[i] && c[|a| + j] == b[j];
    }
    forall i, j | 0 <= i < |a| && 0 <= j < |b| ensures a[i].mesh != b[j].mesh && a[i].body != b[j].body {
      assert c[i] == a[i] && c[|a| + j] == b[j];
    }
  }

  /** A duplicate-free list holding exactly one element is that element. */
  lemma SingletonList<T>(s: seq<T>, x: T)
    requires NoDups(s) && Elems(s) == {x}
    ensures s == [x]
  {
    assert x in Elems(s);
    assert s == [s[0]] + s[1..];
    NoDupsCons(s[0], s[1..]);
    assert Elems(s) == {s[0]} + Elems(s[1..]);
    ElemsEmpty(s[1..]);
  }

  lemma ElemsEmpty<T>(t: seq<T>)
    ensures Elems(t) == {} ==> t == []
  {
    if t != [] {
      assert t[0] in Elems(t);
    }
  }

  /** Detaches the listener of every record's body and drops its body from
      `world` and its mesh from `scene`: the loop body of `reset`
      (main.ts:68-72, 76-80), returning the new lists. */
  method Detach(objs: seq<Tracked>, world: seq<Body>, scene: seq<Mesh>)
      returns (world': seq<Body>, scene': seq<Mesh>)
    requires Distinct(objs) && NoDups(world) && NoDups(scene)
    modifies Bodies(objs)
    ensures NoDups(world') && Elems(world') == Elems(world) - Bodies(objs)
    ensures NoDups(scene') && Elems(scene') == Elems(scene) - Meshes(objs)
    ensures forall i :: 0 <= i < |objs| ==> !objs[i].body.listening
    ensures forall b: Body :: b in Bodies(objs) ==>
      b.mass == old(b.mass) && b.shape == old(b.shape) && b.position == old(b.position) && b.quaternion == old(b.quaternion)
  {
    world', scene' := world, scene;
    var i := 0;
    while i < |objs|
      invariant 0 <= i <= |objs|
      invariant NoDups(world') && Elems(world') == Elems(world) - Bodies(objs[..i])
      invariant NoDups(scene') && Elems(scene') == Elems(scene) - Meshes(objs[..i])
      invariant forall k :: 0 <= k < i ==> !objs[k].body.listening
      invariant forall b: Body :: b in Bodies(objs) ==>
        b.mass == old(b.mass) && b.shape == old(b.shape) && b.position == old(b.position) && b.quaternion == old(b.quaternion)
    {
      objs[i].body.listening := false;
      WithoutRemoves(world', objs[i].body);
      world' := Without(world', objs[i].body);
      WithoutRemoves(scene', objs[i].mesh);
      scene' := Without(scene', objs[i].mesh);
      BodiesAppend(objs[..i], [objs[i]]);
      assert objs[..i + 1] == objs[..i] + [objs[i]];
      i := i + 1;
    }
    assert objs[..i] == objs;
  }

  /** The demo: the floor, the two record lists, the world's bodies and the
      scene's meshes, the hit sound and the frame clock. */
  class PhysicsDemo {
    const floorBody: Body
    const floorMesh: Mesh
    const sound: HitSound
    var spheres: seq<Tracked>      // sphereObjects
    var boxes: seq<Tracked>        // boxObjects
    var world: seq<Body>           // world.bodies
    var scene: seq<Mesh>           // the meshes among the scene's children
    var lastTime: real
    var steps: seq<real>           // the deltaTime passed to each world.step
    ghost var readings: seq<real>  // the clock readings of the frames so far

    function Tracks(): seq<Tracked>
      reads this
    {
      spheres + boxes
    }

    /** The world holds the floor and exactly the tracked bodies, the scene
        the floor mesh and exactly the tracked meshes, each once; and the
        physics steps are the frames' deltas. */
    ghost predicate Valid()
      reads this
    {
      && Distinct(Tracks())
      && floorBody !in Bodies(Tracks()) && floorMesh !in Meshes(Tracks())
      && NoDups(world) && Elems(world) == {floorBody} + Bodies(Tracks())
      && NoDups(scene) && Elems(scene) == {floorMesh} + Meshes(Tracks())
      && steps == Clock.Deltas(0.0, readings) && lastTime == Clock.LastTime(0.0, readings)
    }

    /** The set-up at load time (main.ts:34-40, 94-100). `floorRotation` is
        the quaternion `setFromAxisAngle((-1, 0, 0), PI / 2)` produces; the
        floor mesh's `rotation.x = -PI * 0.5` is the same quarter turn, so
        its quaternion is the same one and floor mesh and floor body lie in
        one plane. */
    constructor (floorRotation: Quaternion)
      ensures Valid() && fresh(floorBody) && fresh(floorMesh) && fresh(sound)
      ensures spheres == [] && boxes == [] && world == [floorBody] && scene == [floorMesh]
      ensures floorBody.mass == 0.0 && floorBody.shape == PlaneShape && floorBody.quaternion == floorRotation
      ensures !floorBody.listening && floorMesh.geometry == FloorPlane
      ensures floorMesh.quaternion == floorBody.quaternion && floorMesh.position == Origin
      ensures lastTime == 0.0 && steps == []
    {
      var b, m := NewFloor(floorRotation);
      floorBody := b;
      floorMesh := m;
      sound := new HitSound();
      spheres := [];
      boxes := [];
      world := [b];
      scene := [m];
      lastTime := 0.0;
      steps := [];
      readings := [];
      new;
      assert Tracks() == [];
      assert Bodies([]) == {} && Meshes([]) == {};
      assert Elems(world) == {floorBody} && Elems(scene) == {floorMesh};
    }

    /** The static floor body and its plane mesh, both turned by `rotation`. */
    static method NewFloor(rotation: Quaternion) returns (b: Body, m: Mesh)
      ensures fresh(b) && fresh(m)
      ensures b.mass == 0.0 && b.shape == PlaneShape && b.position == Origin
      ensures b.quaternion == rotation && !b.listening
      ensures m.geometry == FloorPlane && m.position == Origin && m.quaternion == rotation
    {
      b := new Body(0.0, PlaneShape, Origin);
      b.quaternion := rotation;
      m := new Mesh(FloorPlane);
      m.quaternion := rotation;
    }

    /** Builds one record the way both create functions do: the mesh is
        scaled and placed, the body is made at (0, 3, 0), moved to the
        requested position and given the collide listener. */
    static method NewTracked(geometry: Geometry, scale: Vec3, shape: Shape, position: Vec3)
        returns (o: Tracked)
      ensures fresh(o.mesh) && fresh(o.body)
      ensures o.mesh.geometry == geometry && o.mesh.scale == scale
      ensures o.mesh.position == position && o.mesh.quaternion == IdentityRotation
      ensures o.body.mass == 1.0 && o.body.shape == shape && o.body.position == position
      ensures o.body.quaternion == IdentityRotation && o.body.listening
    {
      var mesh := new Mesh(geometry);
      mesh.scale := scale;
      mesh.position := position;
      var body := new Body(1.0, shape, Vec3(0.0, 3.0, 0.0));
      body.position := position;
      body.listening := true;
      o := Tracked(mesh, body);
    }

    /** Adds a fresh record's mesh to the scene and body to the world. */
    method Register(o: Tracked)
      requires Valid() && o.body !in world && o.mesh !in scene
      modifies this
      ensures world == old(world) + [o.body] && scene == old(scene) + [o.mesh]
      ensures spheres == old(spheres) && boxes == old(boxes)
      ensures lastTime == old(lastTime) && steps == old(steps) && readings == old(readings)
      ensures NoDups(world) && Elems(world) == {floorBody} + Bodies(Tracks()) + {o.body}
      ensures NoDups(scene) && Elems(scene) == {floorMesh} + Meshes(Tracks()) + {o.mesh}
    {
      world := world + [o.body];
      scene := scene + [o.mesh];
    }

    /** `createSphere` (main.ts:190-212). */
    method CreateSphere(radius: real, position: Vec3) returns (o: Tracked)
      requires Valid()
      modifies this
      ensures Valid()
      ensures spheres == old(spheres) + [o] && boxes == old(boxes)
      ensures world == old(world) + [o.body] && scene == old(scene) + [o.mesh]
      ensures fresh(o.mesh) && fresh(o.body)
      ensures o.mesh.geometry == UnitSphere && o.mesh.scale == Vec3(radius, radius, radius)
      ensures o.mesh.position == position && o.body.position == position
      ensures o.body.mass == 1.0 && o.body.shape == SphereShape(radius) && o.body.listening
      ensures lastTime == old(lastTime) && steps == old(steps)
    {
      o := NewTracked(UnitSphere, Vec3(radius, radius, radius), SphereShape(radius), position);
      DistinctInsert(spheres, o, boxes);
      Register(o);
      spheres := spheres + [o];
    }

    /** `createBox` (main.ts:220-249): the box shape takes half extents. */
    method CreateBox(width: real, height: real, depth: real, position: Vec3) returns (o: Tracked)
      requires Valid()
      modifies this
      ensures Valid()
      ensures boxes == old(boxes) + [o] && spheres == old(spheres)
      ensures world == old(world) + [o.body] && scene == old(scene) + [o.mesh]
      ensures fresh(o.mesh) && fresh(o.body)
      ensures o.mesh.geometry == UnitBox && o.mesh.scale == Vec3(width, height, depth)
      ensures o.mesh.position == position && o.body.position == position
      ensures o.body.mass == 1.0 && o.body.listening
      ensures o.body.shape == BoxShape(Vec3(width * 0.5, height * 0.5, depth * 0.5))
      ensures lastTime == old(lastTime) && steps == old(steps)
    {
      o := NewTracked(UnitBox, Vec3(width, height, depth),
                      BoxShape(Vec3(width * 0.5, height * 0.5, depth * 0.5)), position);
      assert spheres + boxes + [] == spheres + boxes;
      DistinctInsert(spheres + boxes, o, []);
      Register(o);
      ghost var before := spheres + boxes;
      boxes := boxes + [o];
      assert Tracks() == before + [o] + [];
    }

    /** `debugObject.reset` (main.ts:67-83). */
    method Reset()
      requires Valid()
      modifies this, Bodies(Tracks())
      ensures Valid()
      ensures spheres == [] && boxes == []
      ensures world == [floorBody] && scene == [floorMesh]
      ensures forall i :: 0 <= i < |old(spheres)| ==> !old(spheres)[i].body.listening
      ensures forall i :: 0 <= i < |old(boxes)| ==> !old(boxes)[i].body.listening
      ensures lastTime == old(lastTime) && steps == old(steps)
    {
      BodiesAppend(spheres, boxes);
      DistinctSplit(spheres, boxes);
      var sp, bx := spheres, boxes;
      var w, sc := Detach(sp, world, scene);
      w, sc := Detach(bx, w, sc);
      SingletonList(w, floorBody);
      SingletonList(sc, floorMesh);
      world, scene := w, sc;
      spheres, boxes := [], [];
    }

    /** A "collide" event on body `b`: only a body carrying the listener
        plays the sound. */
    method OnCollide(b: Body, impact: real, random: real)
      requires Valid() && b in world
      modifies sound
      ensures b.listening && impact > 1.5 ==>
        sound.plays == old(sound.plays) + [Playback(random, 0.0)] && sound.currentTime == 0.0
      ensures !(b.listening && impact > 1.5) ==> sound.plays == old(sound.plays)
    {
      if b.listening {
        sound.PlayHit(impact, random);
      }
    }

    /** The sphere loop of `tick` (main.ts:265-267): position only. */
    method SyncSpheres()
      requires Valid()
      modifies Meshes(spheres)
      ensures forall i :: 0 <= i < |spheres| ==>
        spheres[i].mesh.position == spheres[i].body.position
      ensures forall m: Mesh :: m in Meshes(spheres) ==>
        m.quaternion == old(m.quaternion) && m.scale == old(m.scale)
    {
      DistinctSplit(spheres, boxes);
      var i := 0;
      while i < |spheres|
        invariant 0 <= i <= |spheres|
        invariant forall k :: 0 <= k < i ==> spheres[k].mesh.position == spheres[k].body.position
        invariant forall m: Mesh :: m in Meshes(spheres) ==>
          m.quaternion == old(m.quaternion) && m.scale == old(m.scale)
      {
        spheres[i].mesh.position := spheres[i].body.position;
        i := i + 1;
      }
    }

    /** The box loop of `tick` (main.ts:269-272): position and rotation. */
    method SyncBoxes()
      requires Valid()
      modifies Meshes(boxes)
      ensures forall i :: 0 <= i < |boxes| ==>
        boxes[i].mesh.position == boxes[i].body.position && boxes[i].mesh.quaternion == boxes[i].body.quaternion
      ensures forall m: Mesh :: m in Meshes(boxes) ==> m.scale == old(m.scale)
    {
      DistinctSplit(spheres, boxes);
      var i := 0;
      while i < |boxes|
        invariant 0 <= i <= |boxes|
        invariant forall k :: 0 <= k < i ==>
          boxes[k].mesh.position == boxes[k].body.position && boxes[k].mesh.quaternion == boxes[k].body.quaternion
        invariant forall m: Mesh :: m in Meshes(boxes) ==> m.scale == old(m.scale)
      {
        boxes[i].mesh.position := boxes[i].body.position;
        boxes[i].mesh.quaternion := boxes[i].body.quaternion;
        i := i + 1;
      }
    }

    /** One `tick` at clock reading `elapsed` (main.ts:257-272): the delta
        goes to the physics step, whose effect on the bodies is not
        modelled, then every tracked mesh follows its body. */
    method Tick(elapsed: real)
      requires Valid()
      modifies this, Meshes(Tracks())
      ensures Valid()
      ensures lastTime == elapsed && steps == old(steps) + [elapsed - old(lastTime)]
      ensures Clock.Sum(steps) == elapsed
      ensures spheres == old(spheres) && boxes == old(boxes) && world == old(world) && scene == old(scene)
      ensures forall i :: 0 <= i < |spheres| ==>
        spheres[i].mesh.position == spheres[i].body.position
        && spheres[i].mesh.quaternion == old(spheres[i].mesh.quaternion)
      ensures forall i :: 0 <= i < |boxes| ==>
        boxes[i].mesh.position == boxes[i].body.position && boxes[i].mesh.quaternion == boxes[i].body.quaternion
      ensures forall m: Mesh :: m in Meshes(Tracks()) ==> m.scale == old(m.scale)
    {
      Clock.DeltasAppend(0.0, readings, elapsed);
      steps := steps + [elapsed - lastTime];
      readings := readings + [elapsed];
      lastTime := elapsed;
      Clock.DeltasTelescope(0.0, readings);
      BodiesAppend(spheres, boxes);
      DistinctSplit(spheres, boxes);
      SyncSpheres();
      SyncBoxes();
    }
  }
}
