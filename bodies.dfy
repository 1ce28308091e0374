/** Bodies as the consumer side sees them: the descriptor handed to `add`,
    the debris pieces a subdivision yields, and the pose update of
    `moveSolid` on the name registry. */
module Bodies {
  import opened Js

  /** The object passed to `add`. Material and shape are opaque identifiers
      standing for the THREE.js objects; `breakOption` is
      [maxImpulse, maxRadial, maxRandom, levelOfSubdivision]. */
  datatype Descriptor = Descriptor(
    name: string,
    ty: Option<string>,
    material: nat,
    shape: nat,
    pos: Option<seq<real>>,
    quat: Option<seq<real>>,
    mass: real,
    linearVelocity: seq<real>,
    angularVelocity: seq<real>,
    margin: real,
    breakable: bool,
    breakOption: Option<seq<int>>)

  /** One convex piece returned by the subdivision of a broken mesh. */
  datatype Piece = Piece(
    material: nat,
    geometry: nat,
    pos: seq<real>,
    quat: seq<real>,
    mass: real,
    velocity: seq<real>,
    angularVelocity: seq<real>)

  /** The name registry: name to registered body. */
  type Registry = map<string, Descriptor>

  /** One body's pose after moveSolid: position and orientation are each
      replaced only when supplied. */
  function ApplyPose(d: Descriptor, pos: Option<seq<real>>, quat: Option<seq<real>>): (r: Descriptor)
    ensures r.pos == if pos.Some? then pos else d.pos
    ensures r.quat == if quat.Some? then quat else d.quat
    ensures r.(pos := d.pos, quat := d.quat) == d
  {
    var p := if pos.Some? then d.(pos := pos) else d;
    if quat.Some? then p.(quat := quat) else p
  }

  /** The registry after moveSolid. */
  function Moved(reg: Registry, name: string, pos: Option<seq<real>>, quat: Option<seq<real>>): (r: Registry)
    ensures r.Keys == reg.Keys
    ensures forall n :: n in reg && n != name ==> r[n] == reg[n]
  {
    if name !in reg then reg else reg[name := ApplyPose(reg[name], pos, quat)]
  }

  /** moveSolid on an absent name changes nothing; otherwise it touches
      only that entry, keeps the set of names, and changes position and
      orientation only where supplied. */
  lemma MovedSpec(reg: Registry, name: string, pos: Option<seq<real>>, quat: Option<seq<real>>)
    ensures name !in reg ==> Moved(reg, name, pos, quat) == reg
    ensures Moved(reg, name, pos, quat).Keys == reg.Keys
    ensures forall k :: k in reg && k != name ==> Moved(reg, name, pos, quat)[k] == reg[k]
    ensures name in reg ==>
      && Moved(reg, name, pos, quat)[name].pos == (if pos.Some? then pos else reg[name].pos)
      && Moved(reg, name, pos, quat)[name].quat == (if quat.Some? then quat else reg[name].quat)
      && Moved(reg, name, pos, quat)[name].(pos := reg[name].pos, quat := reg[name].quat) == reg[name]
  {
  }

  /** The two updates are independent: moving, then rotating, equals doing
      both at once, and repeating an update changes nothing more. */
  lemma PoseUpdatesCompose(d: Descriptor, p: seq<real>, q: seq<real>)
    ensures ApplyPose(ApplyPose(d, Some(p), None), None, Some(q)) == ApplyPose(d, Some(p), Some(q))
    ensures ApplyPose(ApplyPose(d, None, Some(q)), Some(p), None) == ApplyPose(d, Some(p), Some(q))
    ensures ApplyPose(ApplyPose(d, Some(p), Some(q)), Some(p), Some(q)) == ApplyPose(d, Some(p), Some(q))
  {
  }
}
