/** End-to-end runs of the engine, each stating what a caller observes. */
module Scenarios {
  import opened Js
  import opened Layout
  import opened Bodies
  import opened Fragments
  import opened Clock
  import opened Settings
  import opened Bridge

  /** start, then two timer fires before the worker replies: exactly one
      step is posted, and it carries the time since start. */
  method TwoFiresOneStep(t0: int, t1: int, t2: int) returns (e: Engine)
    ensures fresh(e)
    ensures StepPosts(e.effects) == 1
    ensures Post(StepMsg(t1 - t0, Key(), false)) in e.effects
    ensures !e.stepNext && e.inFlight == 1 && e.SingleInFlight()
  {
    e := new Engine();
    e.Start(t0);
    assert StepPosts(e.effects) == 0;
    e.SendData(t1, false);
    e.SendData(t2, false);
  }

  /** A reply between the fires lets the second fire post too, with the
      time since the first. */
  method FireReplyFire(t0: int, t1: int, t2: int) returns (e: Engine)
    ensures fresh(e)
    ensures StepPosts(e.effects) == 2
    ensures e.effects[|e.effects| - 1] == Post(StepMsg(t2 - t1, Key(), false))
    ensures e.SingleInFlight()
  {
    e := new Engine();
    e.Init(NoCounts, None, false);
    e.Start(t0);
    assert StepPosts(e.effects) == 0;
    e.SendData(t1, false);
    e.Step();
    e.SendData(t2, false);
  }

  /** reset(true) while running: the timer is cancelled and the registry
      emptied before 'reset' is posted; a later start ticks from a fresh
      `then` on a single new interval. */
  method ResetThenStart(t0: int, t1: int, body: Descriptor) returns (e: Engine)
    ensures fresh(e)
    ensures e.bodies == map[] && e.stepNext
    ensures e.t.thenTime == t1
    ensures |e.effects| >= 3
    ensures e.interval.Some? && e.timers == {e.interval.value}
    ensures e.effects[|e.effects| - 3..] == [ModulesCleared, Post(ResetMsg(true)), ArmInterval(e.interval.value, e.t.timerate)]
  {
    e := new Engine();
    e.Init(NoCounts, None, false);
    e.Start(t0);
    e.Add(body);
    e.Reset(true);
    ghost var cleared := e.effects;
    assert cleared[|cleared| - 2..] == [ModulesCleared, Post(ResetMsg(true))];
    e.Start(t1);
    assert e.effects == cleared + [ArmInterval(e.interval.value, e.t.timerate)];
  }

  /** Breaking a registered body at level 1: the original name is gone,
      each piece is registered under its own name, and none is breakable. */
  method BreakAtLevelOne(body: Descriptor, impact: seq<real>, normal: seq<real>, radial: int, random: int,
                         subdivide: (Descriptor, seq<real>, seq<real>, int, int) -> seq<Piece>)
    returns (e: Engine, debris: seq<Piece>)
    requires body.ty == None
    ensures fresh(e)
    ensures debris == subdivide(body, impact, normal, radial, random)
    ensures body.name !in e.bodies
    ensures |DebrisNames(body.name, 0, |debris|)| == |debris|
    ensures forall j: nat :: j < |debris| ==>
      DebrisName(body.name, j) in e.bodies && !e.bodies[DebrisName(body.name, j)].breakable
  {
    e := new Engine();
    e.Add(body);
    assert body.name in e.bodies;
    var bo := new int[4];
    bo[0], bo[1], bo[2], bo[3] := 0, radial, random, 1;
    debris := subdivide(body, impact, normal, radial, random);
    ghost var before := e.bodies;
    e.MakeBreak(body.name, impact, normal, bo, subdivide);
    BreakSpec(before, body.name, debris, bo[..]);
  }
}
