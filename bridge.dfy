/** The consumer side of the physics-worker bridge (`engine`): the step
    scheduler, the name registry, `add` routing, breaking, and the dispatch
    of the worker's messages. Timer fires, clock readings, the transferable
    probe and the geometric subdivision are parameters; everything the
    engine does outward (posts, timers, calls into category modules) is
    appended, in order, to `effects`. */
module Bridge {
  import opened Js
  import opened Layout
  import opened Router
  import opened Bodies
  import opened Fragments
  import opened Clock
  import opened Settings

  /** Messages posted to the worker. */
  datatype Msg =
    | TestMsg
    | InitMsg(arPos: seq<int>, arMax: int, isBuffer: bool, option: Options)
    | StepMsg(delta: int, key: seq<int>, withBuffer: bool)
    | SetMsg(o: OptionInput)
    | ResetMsg(full: bool)
    | AddMsg(d: Descriptor)

  /** The seven tags `message` dispatches on. */
  predicate HandledTag(tag: string)
  {
    tag == "initEngine" || tag == "start" || tag == "step" || tag == "moveSolid"
    || tag == "ellipsoid" || tag == "makeBreak" || tag == "rayCast"
  }

  /** Any other tag, which `message` ignores. */
  type UnhandledTag = tag: string | !HandledTag(tag) witness "terrain"

  /** Messages the worker sends back, by their `m` tag. */
  datatype Event =
    | InitEngineEv
    | StartEv(now: int)
    | StepEv
    | MoveSolidEv(name: string, pos: Option<seq<real>>, quat: Option<seq<real>>)
    | EllipsoidEv
    | MakeBreakEv(name: string, impact: seq<real>, normal: seq<real>, breakOption: seq<int>)
    | RayCastEv
    | OtherEv(tag: UnhandledTag)

  /** What the engine does outside its own state. */
  datatype Effect =
    | Post(msg: Msg)
    | ArmInterval(handle: nat, period: Rate)
    | CancelInterval(handle: nat)
    | ModuleAdd(target: Target, d: Descriptor)
    | RigidBodyRemove(name: string)
    | ModulesCleared
    | ModuleTick(target: Target)
    | ModuleStep(target: Target, offset: int)
    | EllipsoidCreate
    | RayCastReceive
    | ObjectsCreated
    | ReadyCallback

  /** getKey(): the input state sent with each step. */
  function Key(): seq<int>
  {
    [0, 0, 0, 0, 0, 0, 0, 0]
  }

  /** A layout as initArray plans it: five lengths and five offsets. */
  predicate LayoutShaped(l: BufferLayout)
  {
    |l.lng| == 5 && |l.pos| == 5
  }

  /** The module that reads each slot of the shared buffer, slot by slot;
      the contacts slot belongs to the collision module. */
  const SlotModules: seq<Target> := [RigidBody, Collision, Character, Vehicle, SoftBody]

  /** engine.update(): terrains and the ray caster step, then each slotted
      module steps over the shared buffer from its own slot's offset. */
  function UpdateCalls(pos: seq<int>): (r: seq<Effect>)
    requires |pos| == 5
    ensures |r| == 7 && r[..2] == [ModuleTick(Terrain), ModuleTick(RayCaster)]
    ensures forall k :: 2 <= k < 7 ==> r[k] == ModuleStep(SlotModules[k - 2], pos[k - 2])
  {
    [ModuleTick(Terrain), ModuleTick(RayCaster),
     ModuleStep(RigidBody, pos[0]), ModuleStep(Collision, pos[1]), ModuleStep(Character, pos[2]),
     ModuleStep(Vehicle, pos[3]), ModuleStep(SoftBody, pos[4])]
  }

  /** The clearInterval a live interval handle gets, if there is one. */
  function CancelEffects(interval: Option<nat>): seq<Effect>
  {
    if interval.Some? then [CancelInterval(interval.value)] else []
  }

  /** What `add` does with a descriptor: joints are posted to the worker,
      everything else is handed to the module the router picks. */
  function AddEffect(d: Descriptor): (r: Effect)
    ensures r.Post? <==> StartsWith(TypeOf(d.ty), "join")
    ensures r.Post? ==> r == Post(AddMsg(d))
    ensures !r.Post? ==> r == ModuleAdd(Route(d.ty), d)
  {
    RouteSpec(TypeOf(d.ty));
    var target := Route(d.ty);
    if target == Joint then Post(AddMsg(d)) else ModuleAdd(target, d)
  }

  /** The registry after `add`: the rigid-body module registers the body
      under its name (last writer wins); other modules leave it alone. */
  function Registered(reg: Registry, d: Descriptor): (r: Registry)
    ensures r.Keys == reg.Keys + (if Route(d.ty) == RigidBody then {d.name} else {})
    ensures forall n :: n in reg && n != d.name ==> r[n] == reg[n]
    ensures Route(d.ty) == RigidBody ==> r[d.name] == d
    ensures Route(d.ty) != RigidBody ==> r == reg
  {
    if Route(d.ty) == RigidBody then reg[d.name := d] else reg
  }

  /** The registry after adding `ds` in order. */
  function AddAll(reg: Registry, ds: seq<Descriptor>): Registry
    decreases |ds|
  {
    if ds == [] then reg else Registered(AddAll(reg, ds[..|ds| - 1]), ds[|ds| - 1])
  }

  function AddEffects(ds: seq<Descriptor>): seq<Effect>
  {
    seq(|ds|, k requires 0 <= k < |ds| => AddEffect(ds[k]))
  }

  /** The names a group of descriptors registers: those routed to rigid bodies. */
  function RigidNames(ds: seq<Descriptor>): set<string>
  {
    set k | 0 <= k < |ds| && Route(ds[k].ty) == RigidBody :: ds[k].name
  }

  /** addGroup registers exactly the rigid-body descriptors' names and
      keeps every name already there. */
  lemma {:induction false} AddAllKeys(reg: Registry, ds: seq<Descriptor>)
    ensures AddAll(reg, ds).Keys == reg.Keys + RigidNames(ds)
    decreases |ds|
  {
    if ds != [] {
      var init := ds[..|ds| - 1];
      AddAllKeys(reg, init);
      RigidNamesSnoc(ds);
    } else {
      assert RigidNames(ds) == {};
    }
  }

  /** The rigid names of a group are those of all but its last descriptor,
      plus the last one's name when it is routed to rigid bodies. */
  lemma RigidNamesSnoc(ds: seq<Descriptor>)
    requires ds != []
    ensures var last := ds[|ds| - 1];
      RigidNames(ds) == RigidNames(ds[..|ds| - 1]) + (if Route(last.ty) == RigidBody then {last.name} else {})
  {
    var init := ds[..|ds| - 1];
    forall n | n in RigidNames(ds)
      ensures n in RigidNames(init) + (if Route(ds[|ds| - 1].ty) == RigidBody then {ds[|ds| - 1].name} else {})
    {
      var k :| 0 <= k < |ds| && Route(ds[k].ty) == RigidBody && ds[k].name == n;
      if k < |init| {
        assert init[k] == ds[k];
      }
    }
    forall n | n in RigidNames(init)
      ensures n in RigidNames(ds)
    {
      var k :| 0 <= k < |init| && Route(init[k].ty) == RigidBody && init[k].name == n;
      assert ds[k] == init[k];
    }
  }

  /** The adds of debris |debris|-1 down to lo, in the order they happen;
      debris are convex bodies, which the router hands to the rigid-body module. */
  function DebrisAdds(name: string, debris: seq<Piece>, bo: seq<int>, lo: nat): seq<Effect>
    requires |bo| >= 4 && lo <= |debris|
    decreases |debris| - lo
  {
    if lo == |debris| then []
    else DebrisAdds(name, debris, bo, lo + 1) + [ModuleAdd(RigidBody, DebrisDescriptor(name, lo, debris[lo], bo))]
  }

  /** Number of step requests among the effects. */
  function StepPosts(es: seq<Effect>): nat
  {
    if es == [] then 0
    else (if es[0].Post? && es[0].msg.StepMsg? then 1 else 0) + StepPosts(es[1..])
  }

  lemma {:induction false} StepPostsAppend(a: seq<Effect>, b: seq<Effect>)
    ensures StepPosts(a + b) == StepPosts(a) + StepPosts(b)
  {
    if a == [] {
      assert a + b == b;
    } else {
      assert (a + b)[1..] == a[1..] + b;
      StepPostsAppend(a[1..], b);
    }
  }

  /** Effects that are not posts contain no step request. */
  lemma {:induction false} StepPostsWithoutPosts(es: seq<Effect>)
    requires forall k :: 0 <= k < |es| ==> !es[k].Post?
    ensures StepPosts(es) == 0
  {
    if es != [] {
      StepPostsWithoutPosts(es[1..]);
    }
  }

  class Engine {
    /** May the next timer fire post a step? */
    var stepNext: bool
    /** The timing record `t`. */
    var t: Timing
    /** The handle of the repeating timer, or null. */
    var interval: Option<nat>
    /** The host's live repeating timers. */
    var timers: set<nat>
    /** The handle the host gives the next timer. */
    var nextHandle: nat
    /** Does the worker accept transferred buffers? */
    var isBuffer: bool
    /** Does the consumer side hold a usable `root.Ar`? */
    var holdsBuffer: bool
    var option: Options
    /** ArLng, ArPos and ArMax once initArray has run. */
    var layout: Option<BufferLayout>
    var hasCallback: bool
    /** The name registry (`map`). */
    var bodies: Registry
    /** Has the convex breaker been created? */
    var hasBreaker: bool
    var effects: seq<Effect>
    /** Step requests posted and not yet answered. */
    ghost var inFlight: nat

    /** At most one repeating timer is live, and it is the one `interval` names. */
    ghost predicate Valid()
      reads this`interval, this`timers, this`nextHandle, this`layout
    {
      && timers == (if interval.Some? then {interval.value} else {})
      && (forall h :: h in timers ==> h < nextHandle)
      && (layout.Some? ==> LayoutShaped(layout.value))
    }

    /** At most one step request is outstanding, and none while stepNext is set. */
    ghost predicate SingleInFlight()
      reads this`stepNext, this`inFlight
    {
      inFlight <= 1 && (stepNext ==> inFlight == 0)
    }

    /** The module's state before init. */
    constructor ()
      ensures Valid() && SingleInFlight()
      ensures !stepNext && t == Initial && interval.None? && timers == {}
      ensures !isBuffer && !holdsBuffer && option == ModuleDefault && layout.None?
      ensures !hasCallback && bodies == map[] && !hasBreaker && effects == [] && inFlight == 0
    {
      stepNext := false;
      t := Initial;
      interval := None;
      timers := {};
      nextHandle := 1;
      isBuffer := false;
      holdsBuffer := false;
      option := ModuleDefault;
      layout := None;
      hasCallback := false;
      bodies := map[];
      hasBreaker := false;
      effects := [];
      inFlight := 0;
    }

    /** init: plan the buffer, default the options and derive the timer
        period from the chosen fps (never 0, so the period is finite). */
    method Init(counts: Counts, opt: Option<OptionInput>, callback: bool)
      requires Valid()
      modifies this`layout, this`option, this`hasCallback, this`t
      ensures Valid()
      ensures layout == Some(InitArray(counts))
      ensures option == InitOptions(opt)
      ensures hasCallback == callback
      ensures t == old(t).(timerate := RateOf(option.fps), autoFps := None)
      ensures t.timerate.Ms?
    {
      layout := Some(InitArray(counts));
      option := InitOptions(opt);
      hasCallback := callback;
      t := t.(timerate := RateOf(option.fps), autoFps := None);
    }

    /** startWorker: probe transferable support (`detached` tells whether
        the probe buffer was detached by the post), then send the layout
        and options to the worker. */
    method StartWorker(detached: bool)
      requires Valid() && layout.Some?
      modifies this`isBuffer, this`effects
      ensures isBuffer == detached
      ensures effects == old(effects) + [Post(TestMsg), Post(InitMsg(layout.value.pos, layout.value.max, detached, option))]
    {
      effects := effects + [Post(TestMsg)];
      isBuffer := detached;
      effects := effects + [Post(InitMsg(layout.value.pos, layout.value.max, isBuffer, option))];
    }

    /** initEngine: create the category modules, then call the ready callback. */
    method InitEngine()
      modifies this`effects
      ensures effects == old(effects) + [ObjectsCreated] + (if hasCallback then [ReadyCallback] else [])
    {
      effects := effects + [ObjectsCreated];
      if hasCallback {
        effects := effects + [ReadyCallback];
      }
    }

    /** start: allow a step, take a fresh buffer in transfer mode, restart
        the delta clock at `now`, cancel any live interval and arm exactly
        one new one at the current period. */
    method Start(now: int)
      requires Valid()
      modifies this`stepNext, this`holdsBuffer, this`t, this`interval, this`timers, this`nextHandle, this`effects
      ensures Valid() && stepNext
      ensures holdsBuffer == (isBuffer || old(holdsBuffer))
      ensures t == old(t).(thenTime := now)
      ensures old(nextHandle) !in old(timers)
      ensures interval == Some(old(nextHandle)) && timers == {old(nextHandle)}
      ensures effects == old(effects) + CancelEffects(old(interval)) + [ArmInterval(old(nextHandle), t.timerate)]
      ensures old(inFlight) == 0 ==> SingleInFlight()
    {
      stepNext := true;
      if isBuffer {
        holdsBuffer := true;
      }
      t := t.(thenTime := now);
      if interval.Some? {
        effects := effects + [CancelInterval(interval.value)];
        timers := timers - {interval.value};
      }
      var h := nextHandle;
      nextHandle := nextHandle + 1;
      interval := Some(h);
      timers := timers + {h};
      effects := effects + [ArmInterval(h, t.timerate)];
    }

    /** stop: cancel the interval if there is one; a second stop does nothing. */
    method Stop()
      requires Valid()
      modifies this`interval, this`timers, this`effects
      ensures Valid() && interval.None? && timers == {}
      ensures effects == old(effects) + CancelEffects(old(interval))
    {
      if interval.Some? {
        effects := effects + [CancelInterval(interval.value)];
        timers := timers - {interval.value};
        interval := None;
      }
    }

    /** sendData, the timer's callback: stop first if the view is paused;
        then, only when a step is allowed, post one step carrying the time
        since the previous post, and forbid further steps until the reply. */
    method SendData(now: int, viewPaused: bool)
      requires Valid()
      modifies this`interval, this`timers, this`effects, this`t, this`stepNext, this`holdsBuffer, this`inFlight
      ensures Valid() && !stepNext
      ensures interval == if viewPaused then None else old(interval)
      ensures !old(stepNext) ==>
        && t == old(t) && holdsBuffer == old(holdsBuffer) && inFlight == old(inFlight)
        && effects == old(effects) + (if viewPaused then CancelEffects(old(interval)) else [])
      ensures old(stepNext) ==>
        && t == Tick(old(t), now)
        && holdsBuffer == (old(holdsBuffer) && !isBuffer)
        && inFlight == old(inFlight) + 1
        && effects == old(effects) + (if viewPaused then CancelEffects(old(interval)) else [])
                      + [Post(StepMsg(now - old(t).thenTime, Key(), isBuffer))]
      ensures StepPosts(effects) == StepPosts(old(effects)) + (if old(stepNext) then 1 else 0)
      ensures old(SingleInFlight()) ==> SingleInFlight()
    {
      ghost var e0 := effects;
      if viewPaused {
        Stop();
      }
      ghost var e1 := effects;
      assert StepPosts(e1) == StepPosts(e0) by {
        StepPostsAppend(e0, e1[|e0|..]);
        assert e1 == e0 + e1[|e0|..];
      }
      if !stepNext {
        return;
      }
      t := Tick(t, now);
      effects := effects + [Post(StepMsg(t.delta, Key(), isBuffer))];
      StepPostsAppend(e1, [Post(StepMsg(t.delta, Key(), isBuffer))]);
      if isBuffer {
        holdsBuffer := false;
      }
      stepNext := false;
      inFlight := inFlight + 1;
    }

    /** step, the worker's reply: count the step in the FPS window, let
        every module read its slot, and allow the next step. */
    method Step()
      requires Valid() && layout.Some?
      modifies this`t, this`effects, this`stepNext, this`inFlight
      ensures stepNext && t == CountStep(old(t))
      ensures effects == old(effects) + UpdateCalls(layout.value.pos)
      ensures StepPosts(effects) == StepPosts(old(effects))
      ensures inFlight == if old(inFlight) > 0 then old(inFlight) - 1 else 0
      ensures old(SingleInFlight()) ==> SingleInFlight()
    {
      t := CountStep(t);
      StepPostsWithoutPosts(UpdateCalls(layout.value.pos));
      StepPostsAppend(effects, UpdateCalls(layout.value.pos));
      effects := effects + UpdateCalls(layout.value.pos);
      stepNext := true;
      inFlight := if inFlight > 0 then inFlight - 1 else 0;
    }

    /** set: take the new period from `fps` when given, set autoFps (false
        when not given) and forward the options; without an argument the
        current option record is used. */
    method Set(o: Option<OptionInput>)
      modifies this`t, this`effects
      ensures var given := o.GetOr(AsInput(option));
        && t == SetTiming(old(t), given.fps, given.autoFps)
        && effects == old(effects) + [Post(SetMsg(given))]
    {
      var given := o.GetOr(AsInput(option));
      t := SetTiming(t, given.fps, given.autoFps);
      effects := effects + [Post(SetMsg(given))];
    }

    /** clear: every category module drops its objects, which empties the registry. */
    method Clear()
      modifies this`effects, this`bodies
      ensures bodies == map[] && effects == old(effects) + [ModulesCleared]
    {
      effects := effects + [ModulesCleared];
      bodies := map[];
    }

    /** reset: stop the timer, clear the modules, and only then post 'reset'. */
    method Reset(full: bool)
      requires Valid()
      modifies this`interval, this`timers, this`effects, this`bodies
      ensures Valid() && interval.None? && bodies == map[]
      ensures effects == old(effects) + CancelEffects(old(interval)) + [ModulesCleared, Post(ResetMsg(full))]
    {
      Stop();
      Clear();
      effects := effects + [Post(ResetMsg(full))];
    }

    /** moveSolid: apply a worker pose to a registered body, if any. */
    method MoveSolid(name: string, pos: Option<seq<real>>, quat: Option<seq<real>>)
      modifies this`bodies
      ensures bodies == Moved(old(bodies), name, pos, quat)
    {
      if name !in bodies {
        return;
      }
      var b := bodies[name];
      if pos.Some? {
        b := b.(pos := pos);
      }
      if quat.Some? {
        b := b.(quat := quat);
      }
      bodies := bodies[name := b];
    }

    /** add: route the descriptor by its type. */
    method Add(d: Descriptor)
      modifies this`bodies, this`effects
      ensures bodies == Registered(old(bodies), d)
      ensures effects == old(effects) + [AddEffect(d)]
    {
      var ty := TypeOf(d.ty);
      var prev := Substring(ty, 4);
      if prev == "join" {
        effects := effects + [Post(AddMsg(d))];
      } else if prev == "soft" {
        effects := effects + [ModuleAdd(SoftBody, d)];
      } else if ty == "terrain" {
        effects := effects + [ModuleAdd(Terrain, d)];
      } else if ty == "character" {
        effects := effects + [ModuleAdd(Character, d)];
      } else if ty == "collision" {
        effects := effects + [ModuleAdd(Collision, d)];
      } else if ty == "car" {
        effects := effects + [ModuleAdd(Vehicle, d)];
      } else if ty == "ray" {
        effects := effects + [ModuleAdd(RayCaster, d)];
      } else {
        effects := effects + [ModuleAdd(RigidBody, d)];
        bodies := bodies[d.name := d];
      }
    }

    /** addGroup: add each descriptor in order. */
    method AddGroup(list: seq<Descriptor>)
      modifies this`bodies, this`effects
      ensures bodies == AddAll(old(bodies), list)
      ensures effects == old(effects) + AddEffects(list)
    {
      var i := 0;
      while i < |list|
        invariant 0 <= i <= |list|
        invariant bodies == AddAll(old(bodies), list[..i])
        invariant effects == old(effects) + AddEffects(list[..i])
      {
        assert list[..i + 1][..i] == list[..i];
        Add(list[i]);
        i := i + 1;
      }
      assert list[..i] == list;
    }

    /** removeRigidBody: the rigid-body module drops the body and its name. */
    method RemoveRigidBody(name: string)
      modifies this`bodies, this`effects
      ensures bodies == old(bodies) - {name}
      ensures effects == old(effects) + [RigidBodyRemove(name)]
    {
      effects := effects + [RigidBodyRemove(name)];
      bodies := bodies - {name};
    }

    /** addDebris: add piece `id` as a convex body named name_debris<id>,
        breakable with the shared options exactly when a level remains. */
    method AddDebris(name: string, id: nat, piece: Piece, breakOption: array<int>)
      requires breakOption.Length >= 4
      modifies this`bodies, this`effects
      ensures var d := DebrisDescriptor(name, id, piece, breakOption[..]);
        && bodies == old(bodies)[d.name := d]
        && effects == old(effects) + [ModuleAdd(RigidBody, d)]
    {
      var d := DebrisDescriptor(name, id, piece, breakOption[..]);
      ConvexIsRigid();
      Add(d);
    }

    /** makeBreak: when `name` is registered, subdivide it with the
        options' radial and random spreads, use up one subdivision level
        in place, remove the original and add its debris from the last
        piece down to the first. An unregistered name is ignored. */
    method MakeBreak(name: string, pos: seq<real>, normal: seq<real>, breakOption: array<int>,
                     subdivide: (Descriptor, seq<real>, seq<real>, int, int) -> seq<Piece>)
      requires breakOption.Length >= 4
      modifies this`bodies, this`effects, this`hasBreaker, breakOption
      ensures name !in old(bodies) ==>
        && bodies == old(bodies) && effects == old(effects)
        && hasBreaker == old(hasBreaker) && breakOption[..] == old(breakOption[..])
      ensures name in old(bodies) ==>
        var debris := subdivide(old(bodies)[name], pos, normal, old(breakOption[1]), old(breakOption[2]));
        && hasBreaker
        && breakOption[..] == Decremented(old(breakOption[..]))
        && bodies == DebrisRegistered(old(bodies) - {name}, name, debris, breakOption[..], 0)
        && effects == old(effects) + [RigidBodyRemove(name)] + DebrisAdds(name, debris, breakOption[..], 0)
    {
      if name !in bodies {
        return;
      }
      if !hasBreaker {
        hasBreaker := true;
      }
      var mesh := bodies[name];
      var debris := subdivide(mesh, pos, normal, breakOption[1], breakOption[2]);
      breakOption[3] := breakOption[3] - 1;
      RemoveRigidBody(name);
      ghost var base := bodies;
      ghost var effects0 := effects;
      ghost var bo := breakOption[..];
      var i := |debris|;
      while i > 0
        invariant 0 <= i <= |debris|
        invariant hasBreaker && breakOption[..] == bo
        invariant bodies == DebrisRegistered(base, name, debris, bo, i)
        invariant effects == effects0 + DebrisAdds(name, debris, bo, i)
        decreases i
      {
        i := i - 1;
        AddDebris(name, i, debris[i], breakOption);
      }
    }

    /** makeBreak as `message` calls it, on the options the worker sent. */
    method BreakMessage(name: string, pos: seq<real>, normal: seq<real>, bo: seq<int>,
                        subdivide: (Descriptor, seq<real>, seq<real>, int, int) -> seq<Piece>)
      requires |bo| >= 4
      modifies this`bodies, this`effects, this`hasBreaker
      ensures name !in old(bodies) ==>
        bodies == old(bodies) && effects == old(effects) && hasBreaker == old(hasBreaker)
      ensures name in old(bodies) ==>
        var debris := subdivide(old(bodies)[name], pos, normal, bo[1], bo[2]);
        && hasBreaker
        && bodies == DebrisRegistered(old(bodies) - {name}, name, debris, Decremented(bo), 0)
        && effects == old(effects) + [RigidBodyRemove(name)] + DebrisAdds(name, debris, Decremented(bo), 0)
    {
      var a := new int[|bo|](k => if 0 <= k < |bo| then bo[k] else 0);
      assert a[..] == bo;
      MakeBreak(name, pos, normal, a, subdivide);
    }

    /** `if (data.Ar) root.Ar = data.Ar`: a returned buffer is held again. */
    method TakeBuffer(hasAr: bool)
      modifies this`holdsBuffer
      ensures holdsBuffer == (hasAr || old(holdsBuffer))
    {
      if hasAr {
        holdsBuffer := true;
      }
    }

    /** The switch on the message tag: each of the seven tags reaches its
        handler; any other tag is ignored. */
    method Dispatch(ev: Event, subdivide: (Descriptor, seq<real>, seq<real>, int, int) -> seq<Piece>)
      requires Valid()
      requires ev.StepEv? ==> layout.Some?
      requires ev.MakeBreakEv? ==> |ev.breakOption| >= 4
      modifies this`stepNext, this`holdsBuffer, this`t, this`interval, this`timers, this`nextHandle
      modifies this`effects, this`bodies, this`hasBreaker, this`inFlight
      ensures Valid()
      ensures layout == old(layout) && option == old(option) && isBuffer == old(isBuffer)
      ensures hasCallback == old(hasCallback)
      ensures !ev.StartEv? ==> nextHandle == old(nextHandle) && timers == old(timers)
      ensures !ev.MakeBreakEv? ==> hasBreaker == old(hasBreaker)
      ensures !ev.StartEv? ==> holdsBuffer == old(holdsBuffer)
      ensures ev.StartEv? ==> holdsBuffer == (isBuffer || old(holdsBuffer))
      ensures !ev.StartEv? && !ev.StepEv? ==>
        stepNext == old(stepNext) && t == old(t) && interval == old(interval) && inFlight == old(inFlight)
      ensures !ev.MoveSolidEv? && !ev.MakeBreakEv? ==> bodies == old(bodies)
      ensures ev.InitEngineEv? ==>
        effects == old(effects) + [ObjectsCreated] + (if old(hasCallback) then [ReadyCallback] else [])
      ensures ev.StartEv? ==>
        && stepNext && t == old(t).(thenTime := ev.now) && interval == Some(old(nextHandle))
        && effects == old(effects) + CancelEffects(old(interval)) + [ArmInterval(old(nextHandle), t.timerate)]
      ensures ev.StartEv? ==> inFlight == old(inFlight)
      ensures ev.StartEv? && old(inFlight) == 0 ==> SingleInFlight()
      ensures ev.StepEv? ==>
        && stepNext && t == CountStep(old(t))
        && effects == old(effects) + UpdateCalls(layout.value.pos)
        && inFlight == (if old(inFlight) > 0 then old(inFlight) - 1 else 0)
        && (old(SingleInFlight()) ==> SingleInFlight())
      ensures ev.MoveSolidEv? ==>
        bodies == Moved(old(bodies), ev.name, ev.pos, ev.quat) && effects == old(effects)
      ensures ev.MakeBreakEv? && ev.name !in old(bodies) ==>
        bodies == old(bodies) && effects == old(effects) && hasBreaker == old(hasBreaker)
      ensures ev.MakeBreakEv? && ev.name in old(bodies) ==>
        var debris := subdivide(old(bodies)[ev.name], ev.impact, ev.normal, ev.breakOption[1], ev.breakOption[2]);
        && hasBreaker
        && bodies == DebrisRegistered(old(bodies) - {ev.name}, ev.name, debris, Decremented(ev.breakOption), 0)
        && effects == old(effects) + [RigidBodyRemove(ev.name)] + DebrisAdds(ev.name, debris, Decremented(ev.breakOption), 0)
      ensures ev.EllipsoidEv? ==> effects == old(effects) + [EllipsoidCreate]
      ensures ev.RayCastEv? ==> effects == old(effects) + [RayCastReceive]
      ensures ev.OtherEv? ==> effects == old(effects)
    {
      match ev
      case InitEngineEv =>
        InitEngine();
      case StartEv(now) =>
        Start(now);
      case StepEv =>
        Step();
      case MoveSolidEv(name, pos, quat) =>
        MoveSolid(name, pos, quat);
      case EllipsoidEv =>
        effects := effects + [EllipsoidCreate];
      case MakeBreakEv(name, pos, normal, bo) =>
        BreakMessage(name, pos, normal, bo, subdivide);
      case RayCastEv =>
        effects := effects + [RayCastReceive];
      case OtherEv(_) =>
    }

    /** message: take back the buffer if the worker returned one, then
        dispatch on the tag; unknown tags are ignored. */
    method Message(ev: Event, hasAr: bool, subdivide: (Descriptor, seq<real>, seq<real>, int, int) -> seq<Piece>)
      requires Valid()
      requires ev.StepEv? ==> layout.Some?
      requires ev.MakeBreakEv? ==> |ev.breakOption| >= 4
      modifies this`stepNext, this`holdsBuffer, this`t, this`interval, this`timers, this`nextHandle
      modifies this`effects, this`bodies, this`hasBreaker, this`inFlight
      ensures Valid()
      ensures layout == old(layout) && option == old(option) && isBuffer == old(isBuffer)
      ensures hasCallback == old(hasCallback)
      ensures !ev.StartEv? ==> nextHandle == old(nextHandle) && timers == old(timers)
      ensures !ev.MakeBreakEv? ==> hasBreaker == old(hasBreaker)
      ensures hasAr ==> holdsBuffer
      ensures !hasAr && !ev.StartEv? ==> holdsBuffer == old(holdsBuffer)
      ensures ev.StartEv? ==> holdsBuffer == (hasAr || isBuffer || old(holdsBuffer))
      ensures !ev.StartEv? && !ev.StepEv? ==>
        stepNext == old(stepNext) && t == old(t) && interval == old(interval) && inFlight == old(inFlight)
      ensures !ev.MoveSolidEv? && !ev.MakeBreakEv? ==> bodies == old(bodies)
      ensures ev.InitEngineEv? ==>
        effects == old(effects) + [ObjectsCreated] + (if old(hasCallback) then [ReadyCallback] else [])
      ensures ev.StartEv? ==>
        && stepNext && t == old(t).(thenTime := ev.now) && interval == Some(old(nextHandle))
        && effects == old(effects) + CancelEffects(old(interval)) + [ArmInterval(old(nextHandle), t.timerate)]
      ensures ev.StartEv? ==> inFlight == old(inFlight)
      ensures ev.StartEv? && old(inFlight) == 0 ==> SingleInFlight()
      ensures ev.StepEv? ==>
        && stepNext && t == CountStep(old(t))
        && effects == old(effects) + UpdateCalls(layout.value.pos)
        && inFlight == (if old(inFlight) > 0 then old(inFlight) - 1 else 0)
        && (old(SingleInFlight()) ==> SingleInFlight())
      ensures ev.MoveSolidEv? ==>
        bodies == Moved(old(bodies), ev.name, ev.pos, ev.quat) && effects == old(effects)
      ensures ev.MakeBreakEv? && ev.name !in old(bodies) ==>
        bodies == old(bodies) && effects == old(effects) && hasBreaker == old(hasBreaker)
      ensures ev.MakeBreakEv? && ev.name in old(bodies) ==>
        var debris := subdivide(old(bodies)[ev.name], ev.impact, ev.normal, ev.breakOption[1], ev.breakOption[2]);
        && hasBreaker
        && bodies == DebrisRegistered(old(bodies) - {ev.name}, ev.name, debris, Decremented(ev.breakOption), 0)
        && effects == old(effects) + [RigidBodyRemove(ev.name)] + DebrisAdds(ev.name, debris, Decremented(ev.breakOption), 0)
      ensures ev.EllipsoidEv? ==> effects == old(effects) + [EllipsoidCreate]
      ensures ev.RayCastEv? ==> effects == old(effects) + [RayCastReceive]
      ensures ev.OtherEv? ==> effects == old(effects)
    {
      TakeBuffer(hasAr);
      Dispatch(ev, subdivide);
    }
  }
}
