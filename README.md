# Ammo.lab engine bridge, modelled in Dafny

This project models the consumer side of the physics-worker bridge in
`src/shot/engine.js` (the `engine` singleton that drives an Ammo.js worker):

- **Buffer layout** (`initArray`): capacity hints become five slot lengths
  (rigid bodies ×8, contacts ×1, characters ×8, cars ×56, soft-body points ×3)
  laid end to end in one Float32 buffer (`ArLng`, `ArPos`, `ArMax`).
- **Step scheduler** (`start`, `sendData`, `step`, `stop`, `reset`, `set`): the
  `stepNext` flag lets at most one step request be posted per worker reply; the
  record `t` keeps the delta clock, the one-second FPS window and the timer period;
  `interval` is the handle of the one repeating timer.
- **Category router** (`add`, `addGroup`): a type starting with `join` or `soft`
  routes by that prefix, five types route by exact name, and every other type
  goes to the rigid-body module.
- **Name registry** (`moveSolid`, `removeRigidBody`, `clear`): name → body.
- **Breaking** (`makeBreak`, `addDebris`): the original is replaced by its debris
  `name_debris<i>`, one subdivision level is used up, and pieces stay breakable
  only while a level remains.
- **Option defaulting** in `init`, and the dispatch of worker messages (`message`).

Layout:

| file | module | contents |
|---|---|---|
| js.dfy | Js | `Option`, and JavaScript's `x \|\| d` on numbers |
| sums.dfy | Sums | sums of integer sequences |
| layout.dfy | Layout | `InitArray` and the partition lemmas |
| router.dfy | Router | `Route` and its characterisation |
| bodies.dfy | Bodies | descriptors, debris pieces, the registry, `moveSolid`'s pose update |
| fragments.dfy | Fragments | debris names, decremented options, the registry after a break, depth of fragmentation |
| clock.dfy | Clock | the record `t`, the delta clock and the FPS window |
| settings.dfy | Settings | `init`'s option defaulting |
| bridge.dfy | Bridge | class `Engine`: the engine's state and methods |
| scenarios.dfy | Scenarios | end-to-end runs of `Engine` |

The class `Bridge.Engine` holds the module-level state of `engine.js`
(`stepNext`, `t`, `interval`, `isBuffer`, `option`, the layout, the registry
`map`). Everything the engine does outward — posts to the worker,
`setInterval`/`clearInterval`, calls into the category modules — is appended
in order to the field `effects`, so orderings such as "stop before posting
reset" are stated as equalities on that sequence. Timer fires are explicit
calls of `SendData(now, viewPaused)`; `Time.now()` is the integer-millisecond
parameter `now`; `viewPaused` stands for `refView && refView.pause`. Live timers
are the field `timers`, and `Valid()` states that at most one is live and it is
the one `interval` names. The ghost field `inFlight` counts step requests not
yet answered.

Behaviour of the code worth noting:

- A capacity hint of 0 is falsy, so `||` gives the default; a 0 hint never yields
  an empty slot (`Layout.ZeroHintIsAbsentHint`, `Layout.SlotsNonEmptyAndOrdered`).
- `add` does not reject unknown types: they go to the rigid-body module
  (`Router.RouteSpec`, `Router.ExactNamesAreExact`).
- `start` sets `stepNext` whether or not a step is outstanding, so the
  single-in-flight bound is kept only when `start` comes with no step outstanding:
  `Engine.Start` promises `SingleInFlight()` only under `old(inFlight) == 0`, while
  `SendData` and `Step` preserve it unconditionally.
- `step` measures the FPS window with `t.now` as the last posting `sendData` left
  it, not with a fresh clock reading.
- The ready callback runs on every `initEngine` message, not once.
- `sendData` on a paused view stops the timer but still posts this tick.
- `init` sets `t.autoFps` from `option.autoFps`, which the option record never has
  (undefined: `None`); `set` sets it to false whenever the argument has none.

## Model

| member | source | states |
|---|---|---|
| Layout.InitArray | src/shot/engine.js:142-172 | each slot is `(hint \|\| default) * stride` long (defaults 1400/200/10/14/8192, strides 8/1/8/56/3); ArPos[0] = 0, ArPos[k+1] = ArPos[k] + ArLng[k], ArMax = ArPos[4] + ArLng[4] |
| Js.NumberOr | src/shot/engine.js:147-151 | `hint \|\| default`: a non-zero hint is kept, an absent or 0 hint gives the default, so a non-zero default never yields 0 |
| Js.RealOr | src/shot/engine.js:76 | `worldscale \|\| 1`: a non-zero scale is kept, an absent or 0 one gives the default |
| Layout.InitArrayIsPrefixSums | src/shot/engine.js:162-170 | ArPos is the prefix sums of ArLng and ArMax is their total |
| Layout.SlotsOrdered | src/shot/engine.js:162-168 | with non-negative lengths, each slot ends no later than every later slot starts |
| Layout.SlotCover | src/shot/engine.js:162-170 | with non-negative lengths, every index below the total lies in some slot |
| Layout.SlotUnique | src/shot/engine.js:162-170 | with non-negative lengths, no index lies in two slots |
| Layout.SlotsNonEmptyAndOrdered | src/shot/engine.js:146-170 | for non-negative hints every slot is non-empty and slots are ordered and disjoint, the last ending at ArMax |
| Layout.LayoutPartitionsBuffer | src/shot/engine.js:154-170 | for non-negative hints each index of [0, ArMax) is in exactly one slot |
| Layout.ZeroHintIsAbsentHint | src/shot/engine.js:146-152 | a 0 hint plans the same layout as an absent one, for each of the five hints |
| Layout.TwoBodies | src/shot/engine.js:146-170 | `{maxBody: 2}` gives slot 0 at offset 0 with length 16, the others at default size |
| Layout.DefaultSize | src/shot/engine.js:146-170 | with no hints ArMax = 36840 and ArPos = [0, 11200, 11400, 11480, 12264] |
| Router.Route | src/shot/engine.js:456-467 | only the five exact types reach the terrain, character, collision, car and ray modules; Router.RouteSpec characterises every target |
| Router.PrefixIsStartsWith | src/shot/engine.js:458-461 | comparing `substring(0, 4)` with a 4-character string is a prefix test |
| Router.RouteSpec | src/shot/engine.js:454-467 | each module receives exactly: `join…` → worker, `soft…` → soft bodies, the five exact names → their modules, all else → rigid bodies |
| Router.DefaultTypeIsRigid | src/shot/engine.js:457 | a descriptor without type is a 'box', routed to rigid bodies |
| Router.SoftFamily | src/shot/engine.js:461 | every type beginning with `soft` goes to the soft-body module |
| Router.ExactNamesAreExact | src/shot/engine.js:462-467 | a longer type starting with `car` falls through to rigid bodies |
| Router.ConvexIsRigid | src/shot/engine.js:548 | debris (type 'convex') go to the rigid-body module |
| Bodies.ApplyPose | src/shot/engine.js:390-391 | position and orientation are each replaced only when supplied; nothing else changes |
| Bodies.Moved | src/shot/engine.js:386-393 | moveSolid keeps the set of names and every entry but the named one; Bodies.MovedSpec adds the pose update |
| Bodies.MovedSpec | src/shot/engine.js:386-393 | moveSolid on an absent name changes nothing; otherwise only that entry changes, names are kept |
| Bodies.PoseUpdatesCompose | src/shot/engine.js:390-391 | the position and orientation updates are independent and idempotent |
| Fragments.NatToStringInjective | src/shot/engine.js:546 | distinct piece indices print differently |
| Fragments.DebrisName | src/shot/engine.js:546 | a debris name starts with the parent's name followed by `_debris` and is longer than that prefix |
| Fragments.DebrisNameSuffix | src/shot/engine.js:546 | what follows `name_debris` is exactly the piece's index in decimal |
| Fragments.DebrisNameExample | src/shot/engine.js:546 | piece 12 of 'box' is named 'box_debris12' |
| Fragments.DebrisNameInjective | src/shot/engine.js:546 | `name_debris<i>` names are distinct per index and differ from the parent's name |
| Fragments.DebrisNamesCount | src/shot/engine.js:538-539 | a break with k pieces introduces exactly k names |
| Fragments.Decremented | src/shot/engine.js:534 | `breakOption[3]` drops by one and every other entry, the spreads included, is kept |
| Fragments.DebrisDescriptor | src/shot/engine.js:543-565 | the debris object is a convex body named `name_debris<id>` with the piece's material, shape, pose, mass and both velocities, margin 0.05, breakable and carrying the options iff the level is > 0 |
| Fragments.DebrisRegistered | src/shot/engine.js:538-539 | registering the pieces keeps every existing name and adds each piece's name; Fragments.DebrisRegisteredSpec gives the exact result |
| Fragments.DebrisRegisteredSpec | src/shot/engine.js:538-539 | registering pieces from the last down adds exactly their names, each bound to its own piece, others untouched |
| Fragments.BreakSpec | src/shot/engine.js:521-541 | after a break the original is gone, exactly \|debris\| new names are present, each piece breakable iff a level remains, other names keep their bodies |
| Fragments.Generation | src/shot/engine.js:534 | the options carried `depth` generations down keep their length |
| Fragments.DebrisCarriesNextGeneration | src/shot/engine.js:534-565 | a debris piece carries the decremented options exactly when a level remains |
| Fragments.GenerationLevel | src/shot/engine.js:534-565 | from level n, pieces at depth d ≥ 1 are breakable iff n − d > 0 and then carry level n − d: nothing at depth ≥ n is breakable |
| Fragments.LevelOneLeavesNothingBreakable | src/shot/engine.js:534-565 | breaking at level 1 leaves no breakable piece |
| Clock.RateOf | src/shot/engine.js:88 | the period is Infinity exactly for fps 0, otherwise period × fps = 1000, positive for positive fps |
| Clock.Tick | src/shot/engine.js:265-267 | delta is the time since the previous post, `then` and `now` become the post time, nothing else changes |
| Clock.CountStep | src/shot/engine.js:248 | n is at least 1 and the window start never moves back; it rolls over exactly when `now - 1000 > tmp`, which moves it to `now`, reports the old n as fps and restarts n at 1, otherwise n grows by one |
| Clock.DeltasAreGaps | src/shot/engine.js:265-267 | each posted delta is the time since the previous post; `then` ends at the last post |
| Clock.DeltasTelescope | src/shot/engine.js:265-267 | the deltas of a run sum to the last post time minus the starting `then` |
| Clock.StepsWithinWindow | src/shot/engine.js:248 | steps within 1000 ms of the window start only increment n; window and FPS stay |
| Clock.RunAppend | src/shot/engine.js:246-274 | round trips compose: a run of a + b is a run of b after a |
| Clock.FpsWindow | src/shot/engine.js:248 | after a rollover, the first step past the 1000 ms window reports the number of steps in the window (rollover included) and restarts the count at 1 |
| Clock.SetTiming | src/shot/engine.js:295-296 | set changes only the period (when fps is given; Infinity for 0) and autoFps (the given flag, false when absent) |
| Settings.InitOptions | src/shot/engine.js:73-81 | numeric options never end up 0; each non-zero fps, worldscale, substep and broadphase is kept, an absent or 0 one becomes 60, 1, 2 or 2; a given gravity and both given flags (even false) are kept, absent ones become [0, -10, 0], true and false |
| Settings.InitOptionsIdempotent | src/shot/engine.js:73-81 | defaulting the defaulted options gives them back |
| Settings.InitWithoutOptions | src/shot/engine.js:50-60 | init without options gives the module's default record |
| Bridge.AddAllKeys | src/shot/engine.js:446-467 | addGroup registers exactly the names of the rigid-routed descriptors and keeps the existing ones |
| Bridge.UpdateCalls | src/shot/engine.js:231-244 | terrains and the ray caster step first, then rigid bodies, collision (the contacts slot), characters, vehicles and soft bodies each read from their own slot's offset, in slot order |
| Bridge.AddEffect | src/shot/engine.js:460-467 | the descriptor itself is posted to the worker under 'add' exactly when its type starts with `join`; otherwise it goes to the routed module |
| Bridge.Registered | src/shot/engine.js:460-467 | a rigid-routed descriptor is bound under its name (last writer wins) and every other entry is kept; any other route leaves the registry unchanged |
| Bridge.StepPostsAppend | src/shot/engine.js:269-270 | step requests in a concatenation of effects add up |
| Bridge.Engine.constructor | src/shot/engine.js:25-60 | the module's initial state: no timer, stepNext false, defaults, empty registry |
| Bridge.Engine.Init | src/shot/engine.js:64-89 | layout = initArray(counts), options defaulted, period from fps (finite), autoFps undefined |
| Bridge.Engine.StartWorker | src/shot/engine.js:131-137 | the probe is posted before 'init', which carries ArPos, ArMax, the probe's verdict and the options |
| Bridge.Engine.InitEngine | src/shot/engine.js:198-209 | the modules are created before the ready callback runs |
| Bridge.Engine.Start | src/shot/engine.js:211-227 | stepNext set, `then` reset, any live interval cancelled before exactly one fresh one is armed |
| Bridge.Engine.Stop | src/shot/engine.js:328-335 | the live interval, if any, is cancelled and nulled; a repeated stop has no effect |
| Bridge.Engine.SendData | src/shot/engine.js:259-274 | with stepNext false nothing is posted and `t` is unchanged; otherwise exactly one step is posted with delta = now − then, then = now, stepNext cleared |
| Bridge.Engine.Step | src/shot/engine.js:246-257 | FPS window update, each module steps from its slot offset, stepNext set, single-in-flight kept |
| Bridge.Engine.Set | src/shot/engine.js:292-299 | `t` updated by SetTiming with the given or current options, which are then posted |
| Bridge.Engine.Clear | src/shot/engine.js:431-443 | the category modules are cleared and the registry emptied |
| Bridge.Engine.Reset | src/shot/engine.js:307-326 | the timer is stopped and the modules cleared before 'reset' is posted |
| Bridge.Engine.MoveSolid | src/shot/engine.js:386-393 | the registry becomes Moved(old registry, name, pos, quat) |
| Bridge.Engine.Add | src/shot/engine.js:454-470 | the descriptor goes to the routed module (joints are posted); rigid bodies are registered |
| Bridge.Engine.AddGroup | src/shot/engine.js:446-452 | each descriptor is added in order |
| Bridge.Engine.RemoveRigidBody | src/shot/engine.js:407-411 | the name leaves the registry |
| Bridge.Engine.AddDebris | src/shot/engine.js:543-569 | the piece's debris descriptor is registered and handed to the rigid-body module |
| Bridge.Engine.MakeBreak | src/shot/engine.js:521-541 | absent name: nothing changes; otherwise subdivision with the undecremented spreads, level decremented in place, original removed, debris added last to first |
| Bridge.Engine.TakeBuffer | src/shot/engine.js:177 | a message carrying the buffer gives it back to the consumer side |
| Bridge.Engine.BreakMessage | src/shot/engine.js:190 | 'makeBreak' on the options the worker sent: an unregistered name changes nothing, otherwise the effects and registry of MakeBreak with those options |
| Bridge.Engine.Dispatch | src/shot/engine.js:180-192 | the switch on `m`: each of the seven tags reaches its handler with that handler's state change; the callback flag, layout and options never change; any other tag changes nothing |
| Bridge.Engine.Message | src/shot/engine.js:174-195 | a returned buffer is taken back, then each of the seven tags reaches its handler with that handler's state change; the callback flag, layout and options never change; any other tag changes nothing else |
| Scenarios.TwoFiresOneStep | src/shot/engine.js:211-274 | start then two fires without a reply post exactly one step, carrying the time since start |
| Scenarios.FireReplyFire | src/shot/engine.js:246-274 | with a reply between two fires both post, the second with the time since the first |
| Scenarios.ResetThenStart | src/shot/engine.js:211-227 | after reset(true) the registry is empty, and start arms one new interval with a fresh `then` |
| Scenarios.BreakAtLevelOne | src/shot/engine.js:521-569 | breaking at level 1 removes the original and registers one unbreakable piece per debris |

## Left out

- Worker spawning, `postMessage` transport, `terminate`/`destroy`: posts are entries of `effects`; the transferable probe's outcome is the parameter of `StartWorker`.
- `load`, LZMA decompression and blob URLs (network and foreign code); `init`'s choice between `load` and `startWorker` is not modelled.
- `ConvexObjectBreaker.subdivideByImpact` is not part of this model: it is the function-valued parameter `subdivide` of `MakeBreak`.
- RigidBody.js is not part of this model; the model assumes its `add` registers a body under its name, `remove` deletes the name and `clear` empties the registry. The other category modules are effect entries only.
- `defaultRoot`, `setView`, `updateTmpMat`, `addMat`, material and geometry disposal, `refView.needUpdate`/`refView.reset`, and the `postUpdate`/`tell` hooks (THREE.js scene and view code).
- `getFps`, `getDelta`, `byName`, `getBodys`, `getContainer` (accessors) and the one-line forwarders `drive`, `move`, `forces`, `option`, `remove`, `matrix`, `anchor`, `break`, which post their argument under a fixed tag.
- The values `add` returns for ray casters and rigid bodies (handles of unseen modules), and `add()` with no argument (every descriptor has a name).
- `ellipsoidMesh` and `rayCaster.receive`: recorded as effects only.
- Floating point: the period `(1 / fps) * 1000` is computed exactly in reals, `delta` is kept in milliseconds (the `* 0.001` is not modelled), and hints, fps and times are integers. The break options `[maxImpulse, maxRadial, maxRandom, levelOfSubdivision]` are integers too: a fractional level (1.5 becomes 0.5 after the decrement, still breakable) is not modelled.
- The contents of `root.Ar`; only whether the consumer holds it (`holdsBuffer`) is modelled. In transfer mode a `sendData` without the buffer would throw before clearing `stepNext`; the model posts normally, so no contract depends on `holdsBuffer`.
- All debris of one break share one `breakOption` array object; since every message is copied across the worker boundary the model stores the options as a value.
- Bridge.Engine.MakeBreak: requires `breakOption` to have the four documented entries; a shorter array (where `breakOption[3]` would become NaN) is not modelled.
