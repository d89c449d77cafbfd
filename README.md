# three.js demo scripts, modelled in Dafny

This project models seven browser demos. Each demo is one `src/main.ts` that builds a three.js scene and then reacts to debug-panel events, asset-load callbacks and animation frames:

- **shaders**: a gallery of six shader folders. Opening one closes the others. Opening a new title also resets the mesh and material, installs that folder's shader pair and, for the four shaders that have them, installs its uniforms and per-frame hook.
- **raycast**: hover colouring under the mouse ray, "mouse enter" / "mouse leave" logging, and scaling of the loaded duck.
- **physics**: a cannon-es world of spheres and boxes. It covers creation, reset, the hit sound and mesh/body syncing each frame.
- **scroll**: a page with three sections. The scroll offset picks the section whose mesh spins, and it also sets the camera height.
- **galaxy**: the `generateGalaxy` dispose-and-rebuild, the layout of its particle buffers, and round-robin branch assignment.
- **particles**: a random cloud of 5000 points whose y coordinates are rewritten in place every frame.
- **models**: the fox's animation mixer. It covers the load callback, the stop-then-play clip switch and mixer time.

Each demo is one Dafny module; two more modules are shared:

- `Common` holds vectors, `Option`, list removal and `Math.round`.
- `Clock` holds the `deltaTime` / `lastTime` bookkeeping that several demos repeat.

Module-level variables and library objects mutated in place become classes whose methods have `modifies` clauses. In the shaders, scroll, models and particles demos each such method is proved equal to a pure function of the old state, and the properties are proved as lemmas about those functions. The physics and galaxy demos and the raycast demo's click and load handlers state their new state directly in their `ensures` clauses.

Modelling choices:

- Numbers are `real`.
- `Math.random`, `Math.sin`, `Math.cos` and `Math.pow` are parameters: `nat -> real` for the n-th random draw, `real -> real` for the trigonometric functions.
- The raycaster's answers, the collision's impact velocity and the clock's readings are inputs to the methods that use them.
- The debug panel's handlers are atomic calls that take the panel's title or value as an argument.

## Model

| member | source | states |
|---|---|---|
| Common.Without | physics/src/main.ts:70-71 | Removing an element by identity leaves a list that lacks it unchanged and shortens a list that has it by exactly one. |
| Common.Round | scroll/src/main.ts:145 | `Math.round` gives the integer `k` with `k <= x + 0.5 < k + 1`, i.e. within half a unit of `x`, halves rounding up. |
| Clock.Deltas | models/src/main.ts:138-140 | A run of frames gives one delta per clock reading; the first is the first reading minus the starting `lastTime`. |
| Clock.DeltaAt | physics/src/main.ts:258-260 | Delta `k` is the gap between clock readings `k - 1` and `k` (or the starting `lastTime` for `k = 0`). |
| Clock.DeltasTelescope | scroll/src/main.ts:174-176 | Over any run of frames the deltas sum to the last reading minus the starting `lastTime`. |
| Clock.DeltasAppend | raycast/src/main.ts:137-139 | One more frame appends exactly one delta, the gap from the previous `lastTime`. |
| Clock.DeltasSumToElapsed | models/src/main.ts:135-140 | Starting from `lastTime = 0`, the deltas of a non-empty run sum to the last clock reading. |
| Shaders.ModeOf | shaders/src/main.ts:88-351 | The `switch (name)` dispatch is right both ways: a title it maps to a folder is that folder's title, and a title it reports as unknown belongs to no folder. |
| Shaders.FolderIndex | shaders/src/main.ts:67-71 | Each folder has a position in `gui.folders`, and that position holds that folder. |
| Shaders.TitleNamesOneFolder | shaders/src/main.ts:28-33 | Each folder's title maps back to that folder, so a title names exactly one position of `gui.folders`. |
| Shaders.CloseOthers | shaders/src/main.ts:67-71 | After the loop every folder not titled `t` is closed and the folder titled `t` keeps its flag. |
| Shaders.ClosedOthersUnique | shaders/src/main.ts:67-71 | Any flag list that closes every folder not titled `t` and keeps the titled folder's flag is exactly `ClosedOthers`, so the loop and the specification agree. |
| Shaders.RandomAttribute | shaders/src/main.ts:90-97 | The `aRandom` array has one slot per vertex, and slot `i` holds the `i`-th random draw. |
| Shaders.Swapped | shaders/src/main.ts:75-76 | Disposing and replacing the geometry appends the old geometry to the disposed list and installs a geometry of the new shape with a fresh identity. |
| Shaders.ResetGallery | shaders/src/main.ts:75-86 | The reset disposes the old geometry for a fresh 32x32 plane and restores empty uniforms, front side, depth writing, normal blending, zero rotation, unit scale and the no-op hook; the shader pair and everything outside the look stay. |
| Shaders.Configure | shaders/src/main.ts:88-351 | A folder installs its own shader pair; Texture, Water, Smoke and Hologram install a hook and a `uTime` uniform; Gradient, Noise and unknown titles change nothing but the shader pair, and an unknown title not even that. |
| Shaders.SetupGallery | shaders/src/main.ts:88-351 | Water, Smoke and Hologram dispose the reset plane for their own geometry and the others keep it; only Texture draws `aRandom`; only an unknown title logs; a folder's controls change only while it has none; folder flags and names are untouched. |
| Shaders.Switched | shaders/src/main.ts:65-356 | After the handler at most the titled folder is open and `name = lastName = t`; a repeated title leaves look, controls and log alone; a new title disposes the current geometry and sets `needsUpdate`. |
| Shaders.FolderToggled | shaders/src/main.ts:359 | A toggle that does not change the folder's flag fires nothing; one that does leaves that folder with the requested flag, every other folder closed and `lastName` the folder's title. |
| Shaders.SwitchedKeepsTitled | shaders/src/main.ts:65-71 | The handler never closes the folder whose title it was called with: that folder keeps the flag it had when the event fired. |
| Shaders.ApplyHook | shaders/src/main.ts:416-419 | A frame's hook call changes only uniform values and the rotation, adds or removes no uniform, leaves `uTime` at the elapsed time when a hook is installed, and turns the mesh only for the hologram hook. |
| Shaders.GeometryChosen | shaders/src/main.ts:325-334 | The geometry option always disposes the old geometry and records the option in `debugObject.geometry`; nothing but the mesh's geometry changes. |
| Shaders.OthersClosed | shaders/src/main.ts:65-71 | After an event titled `t`, every other folder is closed, the folder titled `t` keeps its flag, and `lastName` is `t`. |
| Shaders.RepeatedTitleIsNoOp | shaders/src/main.ts:73 | An event with the title already in `lastName` changes only the folder flags and `name`: no mesh, material or hook state. |
| Shaders.RebuildForgetsPrevious | shaders/src/main.ts:73-86 | Every rebuild starts from the reset defaults, so for a folder title the resulting look does not depend on the look before the event. |
| Shaders.SwitchedLook | shaders/src/main.ts:73-351 | For a new title the resulting look is the mode's configuration applied to a look that holds every reset default, the old shader pair and either the reset plane or the mode's own geometry. |
| Shaders.PlainModesKeepDefaults | shaders/src/main.ts:126-133 | Gradient, Noise and unknown titles leave empty uniforms, no hook, front side, depth writing, normal blending, zero rotation, unit scale and the fresh 32x32 plane. Only the shader pair changes, or, for an unknown title (line 350), one "Select a folder" log line is added. |
| Shaders.OnlySmokeAndHologramOverride | shaders/src/main.ts:243-279 | Double side and no depth writing hold exactly for Smoke and Hologram. Additive blending holds exactly for Hologram. A non-unit scale holds exactly for Smoke, and that scale is (0.75, 3, 0.75). |
| Shaders.HookModes | shaders/src/main.ts:122-124 | Texture, Water, Smoke and Hologram install a per-frame hook (lines 122, 238, 268, 343) and no other title does. Hologram's hook is the spinning one. Every installed hook finds a `uTime` uniform. |
| Shaders.TickWritesTime | shaders/src/main.ts:343-347 | Each frame an installed hook sets `uTime` to the elapsed time. The hologram hook also sets rotation x and z to elapsed × 0.1; the plain hook leaves the rotation alone. |
| Shaders.TextureWritesBasePlane | shaders/src/main.ts:90-97 | The texture mode writes four random values (one per vertex of the 1x1 plane) to the module-level plane. By then that plane has been disposed and is not the mesh's geometry. |
| Shaders.SwitchedWellFormed | shaders/src/main.ts:65-356 | Every handler call keeps the invariant: each folder holds none or exactly its set of controls, an installed hook has `uTime`, and the geometry identities are consistent. |
| Shaders.ControlsAddedOnce | shaders/src/main.ts:107-121 | Over any sequence of events, a folder's controls are added at most once because of the `children.length` guard (also lines 160, 261, 294). A folder that already has controls keeps them unchanged. |
| Shaders.StartupShowsSmoke | shaders/src/main.ts:359 | The start-up `smokeFolder.open()` leaves only the smoke folder open, the smoke shader installed with double side and no depth writing, and only smoke's two controls registered. |
| Shaders.RootTitleClosesAll | shaders/src/main.ts:22-24 | The root panel's title names no folder, so an event for it closes every folder and, when new, leaves the reset defaults and logs "Select a folder" (line 350). |
| Shaders.GeometryOptionMapping | shaders/src/main.ts:325-334 | The geometry option always disposes the old geometry first. It then maps 0, 1, 2 to torus knot, sphere and cone; any other value leaves the mesh without a new geometry. |
| Shaders.Mesh.constructor | shaders/src/main.ts:54-57 | The gallery mesh starts on the base plane at zero rotation and unit scale. |
| Shaders.ShaderMaterial.constructor | shaders/src/main.ts:55 | The shader material starts with no uniforms, front side, depth writing and normal blending. |
| Shaders.ShaderGallery.constructor | shaders/src/main.ts:54-63 | The script starts with every folder closed, no controls, empty `name`/`lastName` and a no-op hook. |
| Shaders.ShaderGallery.OnOpenClose | shaders/src/main.ts:65-356 | The imperative handler produces exactly the state of `Switched` on the old state and keeps the invariant. |
| Shaders.ShaderGallery.Rebuild | shaders/src/main.ts:73-356 | For a title other than the last one the reset, the mode's set-up, the recompilation flag and the new `lastName` give `SetupGallery` of the reset state, marked for update and remembering the title. |
| Shaders.ShaderGallery.SwapGeometry | shaders/src/main.ts:75-76 | Dispose-and-replace on the mesh is `Swapped` on the state. |
| Shaders.ShaderGallery.ResetDefaults | shaders/src/main.ts:75-86 | The reset block produces `ResetGallery` of the old state. |
| Shaders.ShaderGallery.SetupMode | shaders/src/main.ts:88-351 | The `switch (name)` produces `SetupGallery` of the old state for the title's mode. |
| Shaders.ShaderGallery.SetupTexture | shaders/src/main.ts:89-125 | The texture branch fills `aRandom` with the plane's random draws and gives `SetupGallery` for the texture folder. |
| Shaders.ShaderGallery.SetupReshaped | shaders/src/main.ts:134-350 | The water, smoke and hologram branches replace the plane with the mode's geometry and then configure it, giving `SetupGallery` for that folder. |
| Shaders.ShaderGallery.ConfigureWater | shaders/src/main.ts:137-240 | The water case rotates the plane by -π/2 about x, installs the water uniforms, registers its 12 controls once and installs the time hook. |
| Shaders.ShaderGallery.ConfigureSmoke | shaders/src/main.ts:245-270 | The smoke case sets scale, double side and no depth writing, installs the smoke uniforms, registers 2 controls once and installs the time hook. |
| Shaders.ShaderGallery.ConfigureHologram | shaders/src/main.ts:275-347 | The hologram case sets double side, no depth writing and additive blending, installs its uniforms, registers 7 controls once and installs the spinning hook. |
| Shaders.ShaderGallery.SetFolderOpen | shaders/src/main.ts:359 | Opening or closing a folder fires the handler only when the flag changes, giving `FolderToggled`. |
| Shaders.ShaderGallery.Tick | shaders/src/main.ts:416-419 | The frame's `onTickUpdateShader(elapsedTime)` call is `ApplyHook` on the look, and nothing else changes. |
| Shaders.ShaderGallery.OnGeometryOption | shaders/src/main.ts:325-334 | The option handler produces `GeometryChosen` of the old state. |
| Raycast.FrameColors | raycast/src/main.ts:150-165 | After a frame each group object is blue if and only if some intersection names it, and red otherwise. |
| Raycast.HoverStep | raycast/src/main.ts:167-177 | `currentIntersect` is non-null iff there are intersections, and then it is the first one. "mouse enter" is logged exactly on null→hit, "mouse leave" exactly on hit→null, and nothing when the state persists. |
| Raycast.ModelScale | raycast/src/main.ts:179-187 | The duck's scale is 1.5 exactly when the ray hits it and 1 exactly when it does not. |
| Raycast.Heights | raycast/src/main.ts:142-144 | There is one bobbing height per group object. |
| Raycast.EnterLeaveAlternate | raycast/src/main.ts:167-177 | Over any run of frames the log alternates enter/leave, starting from the edge the initial state allows. The ray is over an object at the end exactly when the log length plus the initial parity is odd. |
| Raycast.HoverRunParity | raycast/src/main.ts:167-177 | Over any run of frames the ray ends over an object exactly when the log length plus the initial parity is odd. |
| Raycast.EnterLeaveFromStart | raycast/src/main.ts:132-134 | From the initial `currentIntersect = null` the log is enter, leave, enter, …, and it ends with "mouse enter" exactly when the ray is over an object. |
| Raycast.HoverRun | raycast/src/main.ts:167-177 | An empty run changes nothing, and each frame logs at most one line. |
| Raycast.HoverEndsOnLastFrame | raycast/src/main.ts:167-177 | After any non-empty run of frames, `currentIntersect` is decided by the last frame alone: its nearest hit, or null. |
| Raycast.HoverDemo.constructor | raycast/src/main.ts:128-134 | The demo starts with `lastTime = 0` and no intersection, with the three objects red (lines 34-45), no model loaded and an empty log. |
| Raycast.HoverDemo.OnModelLoaded | raycast/src/main.ts:24-27 | The loaded duck enters at scale 1; nothing else changes. |
| Raycast.HoverDemo.Tick | raycast/src/main.ts:137-187 | One frame sets `lastTime` and the heights, sets the colours to `FrameColors`, advances `currentIntersect` and the log by `HoverStep`, and rescales the duck only once it has loaded. |
| Raycast.HoverDemo.OnClick | raycast/src/main.ts:107-111 | A click logs "click on an object" only when `currentIntersect` is non-null, and changes nothing else. |
| Physics.WithoutRemoves | physics/src/main.ts:70-71 | Removing a body from a duplicate-free world keeps it duplicate-free and removes exactly that body from its element set. |
| Physics.Body.constructor | physics/src/main.ts:199-204 | A new body has the given mass, shape and position, identity rotation and no listener. |
| Physics.Mesh.constructor | physics/src/main.ts:192 | A new mesh has the given geometry, zero position, identity rotation and unit scale. |
| Physics.HitSound.constructor | physics/src/main.ts:8-15 | The hit sound starts at volume 1, time 0, never played. |
| Physics.HitSound.PlayHit | physics/src/main.ts:8-15 | The sound plays if and only if the impact strength exceeds 1.5, at the random volume, rewound to time 0. A weaker impact changes nothing. |
| Physics.Detach | physics/src/main.ts:67-83 | Every record's listener is removed, the world loses exactly the records' bodies and the scene exactly their meshes, both stay duplicate-free, and no other body field changes. |
| Physics.PhysicsDemo.constructor | physics/src/main.ts:35-100 | The world holds only the floor body (mass 0, plane shape, the given rotation, no listener), the scene only the floor mesh, which has the same quarter-turn orientation as the body (line 98), and both record lists are empty. |
| Physics.PhysicsDemo.NewFloor | physics/src/main.ts:34-39 | The floor body is fresh, static (mass 0), a plane at the origin turned by the given rotation and without a listener; the floor mesh is a fresh plane at the origin with the same rotation (line 98). |
| Physics.PhysicsDemo.NewTracked | physics/src/main.ts:190-207 | A new record's mesh and body both sit at the requested position, overriding the (0, 3, 0) constructor value. The body has mass 1, the given shape and the collide listener. |
| Physics.PhysicsDemo.Register | physics/src/main.ts:196-211 | A new record adds exactly its body to the world and its mesh to the scene, and both stay duplicate-free. |
| Physics.PhysicsDemo.CreateSphere | physics/src/main.ts:190-212 | `createSphere` appends exactly one record to `sphereObjects` and adds exactly its body, with a listener and shape `Sphere(radius)`, to the world. |
| Physics.PhysicsDemo.CreateBox | physics/src/main.ts:220-249 | `createBox` appends exactly one record to `boxObjects`, with half-extent box shape and size scale, and adds exactly its listening body to the world. |
| Physics.PhysicsDemo.Reset | physics/src/main.ts:67-83 | After `reset` both lists are empty, the world is exactly the floor body and the scene the floor mesh, and every formerly tracked body has its listener removed. |
| Physics.PhysicsDemo.OnCollide | physics/src/main.ts:207 | A collision plays the sound only for a body with the listener and an impact above 1.5. |
| Physics.PhysicsDemo.SyncSpheres | physics/src/main.ts:265-267 | Every sphere mesh's position equals its body's; sphere rotations and scales are not touched. |
| Physics.PhysicsDemo.SyncBoxes | physics/src/main.ts:269-272 | Every box mesh's position and quaternion equal its body's. |
| Physics.PhysicsDemo.Tick | physics/src/main.ts:257-272 | A frame records one delta, so the deltas sum to the current clock reading. Spheres get their bodies' positions and boxes their positions and quaternions; no list changes. |
| Scroll.SectionPosition | scroll/src/main.ts:44-58 | Section mesh `k` sits at y = -objectDistance·k, with x = 2 except for mesh 1, which is at x = -2. |
| Scroll.SectionIndex | scroll/src/main.ts:145 | The new section index is the integer within half a unit of `scrollY / height`. |
| Scroll.CameraY | scroll/src/main.ts:185 | The camera descends `objectDistance` per viewport height scrolled (`y × height = −objectDistance × scrollY`), so it never rises above the first section for a non-negative offset. |
| Scroll.SectionAtMultiple | scroll/src/main.ts:145 | Scrolled exactly to `k` window heights, the index is `k`. |
| Scroll.CameraLevelWithSection | scroll/src/main.ts:185 | Scrolled exactly to section `k`, the camera's y equals that section mesh's y. |
| Scroll.Scrolled | scroll/src/main.ts:143-155 | The listener records the offset, sets the current section to the rounded index and adds at most one spin tween, on the mesh of that index; a listener that throws adds none. |
| Scroll.ScrollSpec | scroll/src/main.ts:143-155 | After a scroll event `currentSection` is the new index. A tween starts iff the index differs and names a mesh, and it spins that mesh by (+6, +3) over 1.5 s. The listener throws iff the index differs but names no mesh. |
| Scroll.SameSectionStartsNoTween | scroll/src/main.ts:146 | Any number of scroll events within the current section start no tween. |
| Scroll.RunTweensInRange | scroll/src/main.ts:146-153 | Over any run of events every tween targets one of the three meshes, no earlier tween is lost, and at most one tween starts per event. |
| Scroll.ScrollPage.constructor | scroll/src/main.ts:141-142 | The page starts at the window's scroll offset with `currentSection = 0`. |
| Scroll.ScrollPage.OnScroll | scroll/src/main.ts:143-155 | The listener produces `Scrolled` of the old state, including whether it throws. |
| Scroll.ScrollPage.OnResize | scroll/src/main.ts:101-104 | A resize changes only the height the index is computed against. |
| Scroll.ScrollPage.Tick | scroll/src/main.ts:173-185 | Each mesh's rotation advances by delta × 0.1 about x and delta × 0.13 about y, `lastTime` becomes the reading, and the camera y is `-scrollY / height × objectDistance`. |
| Galaxy.BranchOf | galaxy/src/main.ts:111-112 | Particle `i` is dealt onto a branch below `branches`. |
| Galaxy.BranchPeriodic | galaxy/src/main.ts:111-112 | Dealing is periodic with period `branches`. |
| Galaxy.Lerp | galaxy/src/main.ts:129-130 | The colour mix is the inside colour at fraction 0 and the outside colour at fraction 1. |
| Galaxy.ColorByDistance | galaxy/src/main.ts:109-130 | A star drawn at the centre has the inside colour; one drawn at the full radius has the outside colour. |
| Galaxy.RandomnessUnused | galaxy/src/main.ts:114-123 | The `randomness` parameter has no effect on any star: only `randomnessPower` enters the offsets. |
| Galaxy.StarAt | galaxy/src/main.ts:106-135 | Particle `i`'s colour is the inside colour moved towards the outside colour by the fraction of the radius its first draw picked. |
| Galaxy.RadiusFraction | galaxy/src/main.ts:130 | The colour mix `radius / parameters.radius` equals the first draw of the particle. |
| Galaxy.PutTriple | galaxy/src/main.ts:125-134 | One particle's three values land in slots `3i`, `3i+1`, `3i+2`, and no earlier slot changes. |
| Galaxy.FillStars | galaxy/src/main.ts:100-135 | Both buffers have `3 × count` slots, and slot `3k + c` holds component `c` of particle `k`'s position or colour. |
| Galaxy.BranchCountFormula | galaxy/src/main.ts:111-112 | Of the first `n` particles, branch `b` gets `n / branches`, plus one if `b < n % branches`. |
| Galaxy.BranchesBalanced | galaxy/src/main.ts:111-112 | Any two branches' particle counts differ by at most one. |
| Galaxy.StarGeometry.constructor | galaxy/src/main.ts:99-138 | The geometry holds the two given buffers and is not disposed. |
| Galaxy.StarMaterial.constructor | galaxy/src/main.ts:140-146 | The material copies size, size attenuation, depth writing and blending from the parameters and turns on vertex colours. |
| Galaxy.StarPoints.constructor | galaxy/src/main.ts:148 | The points object pairs the geometry and the material. |
| Galaxy.GalaxyDemo.constructor | galaxy/src/main.ts:22-35 | The script starts with the default parameters and no geometry, material, points or scene entry. |
| Galaxy.GalaxyDemo.GenerateGalaxy | galaxy/src/main.ts:92-150 | The old geometry and material are disposed when points existed, and the scene then holds exactly the new points. The new buffers hold the layout of `count` stars, and the new material reflects the parameters. |
| Galaxy.GalaxyDemo.Edit | galaxy/src/main.ts:37-83 | A controller changes only its own field. Every controller except the two colour pickers regenerates the galaxy, disposing the old objects and filling new buffers with the layout of the edited parameters; a colour edit only stores the new colour. |
| Particles.InitialPosition | particles/src/main.ts:32-34 | A position draw in [0, 1) gives a coordinate in [-5, 5), and a draw of one half gives 0. |
| Particles.InitialColor | particles/src/main.ts:32-35 | A colour draw in [0, 1) gives a channel in [0, 1). |
| Particles.Wave | particles/src/main.ts:130-136 | After a frame the buffer has its old length, every x and z slot keeps its value, and each y slot becomes `sin(elapsed + x)` of its own point's x. |
| Particles.FillParticles | particles/src/main.ts:29-35 | Two distinct buffers of `3 × count` slots; slot `j` holds `(random − 0.5) × 10` and `random` from the slot's own two draws. |
| Particles.WaveSlots | particles/src/main.ts:130-136 | After a frame each point keeps its x and z and its y becomes `sin(elapsed + x)`. |
| Particles.WaveIgnoresY | particles/src/main.ts:130-136 | A frame never reads a y slot: two buffers agreeing on every x and z agree after the frame. |
| Particles.WaveIdempotent | particles/src/main.ts:130-136 | A second frame at the same time changes nothing, because the loop never writes the x slots it reads. |
| Particles.WaveUpToStep | particles/src/main.ts:131-136 | One loop iteration rewrites exactly point `i`'s y, from its still untouched x. |
| Particles.WaveUpToAll | particles/src/main.ts:130 | After all `count` points the partial buffer is the whole frame. |
| Particles.ParticleGeometry.constructor | particles/src/main.ts:37-42 | The geometry holds the two given buffers. |
| Particles.ParticleGeometry.Tick | particles/src/main.ts:130-139 | The in-place loop leaves the position buffer equal to `Wave` of its old contents and sets `needsUpdate`. |
| Particles.Setup | particles/src/main.ts:26-42 | The geometry is built over freshly filled position and colour buffers. |
| Models.SliderValue | models/src/main.ts:16-20 | The slider stores an integer in 0..2: the nearest step to the value inside the range, 0 below it, 2 above it. |
| Models.SliderKeepsIntegers | models/src/main.ts:16-20 | An integer position of the slider is kept as it is. |
| Models.SliderIdempotent | models/src/main.ts:16-20 | Snapping and clamping again changes nothing. |
| Models.InitialConsistent | models/src/main.ts:12-14 | The script starts consistent, with no mixer, no action and no calls. |
| Models.Loaded | models/src/main.ts:47-56 | The load callback installs a mixer at time 0 and the file's clips, throws exactly when the slider names no clip, and otherwise plays the clip it names. |
| Models.Switched | models/src/main.ts:16-27 | A slider release stores the snapped value, leaves mixer, clips and `lastTime` alone, appends at most a stop and a play, throws only once mixer and action exist, and any new action is the chosen clip. |
| Models.Ticked | models/src/main.ts:137-145 | A frame sets `lastTime` to the reading, advances an existing mixer by the time since the previous reading, keeps a missing mixer missing and changes nothing else. |
| Models.LoadSpec | models/src/main.ts:47-53 | The load callback creates the mixer at time 0. It plays exactly `animations[debugObject.animation]`, or throws with no action when the file has no such clip. |
| Models.SwitchBeforeLoad | models/src/main.ts:22 | Before the model loads (mixer or action null) a slider change updates `debugObject.animation` and nothing else. |
| Models.SwitchAfterLoad | models/src/main.ts:22-26 | After load a switch stops the old action and only then plays the newly chosen clip. If the file has no such clip it throws after the stop. |
| Models.EventsKeepConsistent | models/src/main.ts:21-27 | Every event that does not throw keeps the current action equal to `animations[debugObject.animation]` and last played, alongside an existing mixer. |
| Models.EnoughClipsNeverThrow | models/src/main.ts:16-26 | With at least three clips (the fox's count), neither the load callback nor any switch can throw. |
| Models.MixerFollowsClock | models/src/main.ts:137-145 | Over any run of frames the mixer advances by the sum of the deltas, i.e. the last reading minus the starting `lastTime`. With no mixer nothing advances, and the action state is untouched. |
| Models.AnimationDemo.constructor | models/src/main.ts:44-46 | The variables start null or empty with `animation = 0`. |
| Models.AnimationDemo.OnLoad | models/src/main.ts:47-56 | The load callback produces `Loaded` of the old state. |
| Models.AnimationDemo.OnFinishChange | models/src/main.ts:21-27 | The finish-change handler produces `Switched` of the old state. |
| Models.AnimationDemo.Tick | models/src/main.ts:137-145 | A frame sets `lastTime` and advances an existing mixer by the delta. |

## Left out

- Rendering, WebGL, OrbitControls, the GLSL sources, shadows, lights and the renderer's pixel ratio: none of it is visible in the scripts' own logic.
- Asset loaders (GLTF, DRACO, textures): each completion is a single "loaded" event (`OnModelLoaded`, `OnLoad`). A load error, which makes a model never appear, is not modelled.
- cannon-es `world.step` and the contact's impact velocity: body positions and quaternions are whatever the engine left, and the impact strength is a parameter.
- Raycaster intersection maths: the intersection list and the "duck is hit" flag are inputs per frame.
- gsap easing: a tween is recorded as started with its target, offsets and duration. How the rotation moves over 1.5 s is not modelled.
- `Math.random`, `Math.sin`, `Math.cos` and `Math.pow` are parameters, not their real functions, so no property depends on their values. The galaxy offsets' sign draw (`random < 0.5`) is modelled with the given draw.
- Float32 rounding of the particle and galaxy buffers: the buffers hold exact reals.
- Resize, fullscreen and cursor handlers, including the scroll demo's camera parallax (scroll/src/main.ts:186-191). Only the resize's new height is kept, because the section index divides by it.
- The scroll demo's background particles (scroll/src/main.ts:60-71): pure scene set-up.
- lil-gui re-entrancy: whether `folder.close()` inside the shaders handler fires the handler again is library behaviour. The handler is modelled as atomic.
- lil-gui's own snapping: `Models.SliderValue` assumes a slider snaps to the nearest step from its minimum and then clamps. The lil-gui source is not part of this model.
- The shaders controls' `onChange` callbacks (colour pickers and sliders writing uniforms) and the hex colour parsing of `new THREE.Color(...)`: colours are carried as their hex strings or as given channels.
- Galaxy colours: `insideColor` and `outsideColor` are held as their hex digits divided by 255. The conversion three.js colour management may apply when `new THREE.Color(hex)` parses a hex string is not modelled.
- Galaxy.WellFormed: `branches > 0` and `radius > 0` are preconditions. The sliders keep them at least 2 and 0.01, and the code divides by both.
- Scroll.SectionIndex: `height > 0` is a precondition, since a window is never zero pixels tall.
- Physics.PhysicsDemo.OnCollide: only the sound is modelled, not the collision's effect on the bodies, which is the engine's.
- Raycast.Heights: its contract states only the count. The values are the `sin` parameter applied to the product of the time and each rate, which the source does not constrain further.
- Models.AnimationDemo.Tick: the mixer is held as its accumulated time. What `mixer.update` does to the pose is three.js's.
