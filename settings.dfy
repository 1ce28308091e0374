/** The engine's option record and the defaulting `init` applies to the
    options it is given. */
module Settings {
  import opened Js

  /** An options object as a caller passes it; None is an absent property. */
  datatype OptionInput = OptionInput(
    fps: Option<int>,
    worldscale: Option<real>,
    gravity: Option<seq<real>>,
    substep: Option<int>,
    broadphase: Option<int>,
    soft: Option<bool>,
    fixed: Option<bool>,
    autoFps: Option<bool>)

  const NoOptions := OptionInput(None, None, None, None, None, None, None, None)

  /** The option record the engine keeps and sends to the worker. */
  datatype Options = Options(
    fps: int,
    worldscale: real,
    gravity: seq<real>,
    substep: int,
    broadphase: int,
    soft: bool,
    fixed: bool)

  /** The record the module starts with, before init (it has no `fixed`
      property, read here as false). */
  const ModuleDefault := Options(60, 1.0, [0.0, -10.0, 0.0], 2, 2, true, false)

  /** init's defaulting: numeric options use `||` (absent or 0 take the
      default), gravity is kept whenever present, and the two flags use
      `!== undefined`, so an explicit false survives. */
  function InitOptions(o: Option<OptionInput>): (r: Options)
    ensures r.fps != 0 && r.substep != 0 && r.broadphase != 0 && r.worldscale != 0.0
    ensures o.Some? && o.value.gravity.Some? ==> r.gravity == o.value.gravity.value
    ensures o.Some? && o.value.soft.Some? ==> r.soft == o.value.soft.value
    ensures o.Some? && o.value.fixed.Some? ==> r.fixed == o.value.fixed.value
    ensures o.Some? && o.value.fps.Some? && o.value.fps.value != 0 ==> r.fps == o.value.fps.value
    ensures (o.None? || o.value.fps.None? || o.value.fps == Some(0)) ==> r.fps == 60
    ensures o.Some? && o.value.worldscale.Some? && o.value.worldscale.value != 0.0 ==> r.worldscale == o.value.worldscale.value
    ensures (o.None? || o.value.worldscale.None? || o.value.worldscale == Some(0.0)) ==> r.worldscale == 1.0
    ensures o.Some? && o.value.substep.Some? && o.value.substep.value != 0 ==> r.substep == o.value.substep.value
    ensures (o.None? || o.value.substep.None? || o.value.substep == Some(0)) ==> r.substep == 2
    ensures o.Some? && o.value.broadphase.Some? && o.value.broadphase.value != 0 ==> r.broadphase == o.value.broadphase.value
    ensures (o.None? || o.value.broadphase.None? || o.value.broadphase == Some(0)) ==> r.broadphase == 2
    ensures (o.None? || o.value.gravity.None?) ==> r.gravity == [0.0, -10.0, 0.0]
    ensures (o.None? || o.value.soft.None?) ==> r.soft
    ensures (o.None? || o.value.fixed.None?) ==> !r.fixed
  {
    var i := o.GetOr(NoOptions);
    Options(
      NumberOr(i.fps, 60),
      RealOr(i.worldscale, 1.0),
      i.gravity.GetOr([0.0, -10.0, 0.0]),
      NumberOr(i.substep, 2),
      NumberOr(i.broadphase, 2),
      i.soft.GetOr(true),
      i.fixed.GetOr(false))
  }

  /** An option record seen as an options object (it has no autoFps). */
  function AsInput(opt: Options): OptionInput
  {
    OptionInput(Some(opt.fps), Some(opt.worldscale), Some(opt.gravity), Some(opt.substep),
                Some(opt.broadphase), Some(opt.soft), Some(opt.fixed), None)
  }

  /** Defaulting is idempotent: feeding init its own result gives it back. */
  lemma InitOptionsIdempotent(o: Option<OptionInput>)
    ensures InitOptions(Some(AsInput(InitOptions(o)))) == InitOptions(o)
  {
  }

  /** init without options (or with an empty object) gives the module's defaults. */
  lemma InitWithoutOptions()
    ensures InitOptions(None) == ModuleDefault
    ensures InitOptions(Some(NoOptions)) == ModuleDefault
  {
  }
}
