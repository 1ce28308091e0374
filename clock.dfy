/** The engine's timing record `t` and the pure steps the scheduler applies
    to it. Times are integer milliseconds; `delta` is kept in milliseconds
    (the source scales it by 0.001 to seconds). */
module Clock {
  import opened Js
  import opened Sums

  /** t.timerate, the interval period in ms: 1000 / fps, or Infinity when
      fps is 0. The initial record holds 0. */
  datatype Rate = Ms(ms: real) | Infinite

  function RateOf(fps: int): (r: Rate)
    ensures r.Infinite? <==> fps == 0
    ensures r.Ms? ==> r.ms * fps as real == 1000.0
    ensures fps > 0 ==> r.Ms? && r.ms > 0.0
  {
    if fps == 0 then Infinite else Ms(1000.0 / fps as real)
  }

  /** The record `t`. `fps` is None until the first window rollover (the
      initial record has no fps property); `inter` is never used and left out. */
  datatype Timing = Timing(
    now: int,
    delta: int,
    thenTime: int,
    tmp: int,
    n: nat,
    fps: Option<nat>,
    timerate: Rate,
    autoFps: Option<bool>)

  const Initial := Timing(0, 0, 0, 0, 0, None, Ms(0.0), Some(false))

  /** The clock update of a sendData call that posts a step. */
  function Tick(t: Timing, now: int): (r: Timing)
    ensures r.delta == r.thenTime - t.thenTime && r.thenTime == now && r.now == now
    ensures r.(now := t.now, delta := t.delta, thenTime := t.thenTime) == t
  {
    t.(now := now, delta := now - t.thenTime, thenTime := now)
  }

  /** The FPS accounting at the head of step(); it reads `now` as the last
      posting sendData left it. */
  function CountStep(t: Timing): (r: Timing)
    ensures r.n >= 1 && r.tmp >= t.tmp
    ensures r.tmp != t.tmp <==> t.now - 1000 > t.tmp
    ensures r.tmp != t.tmp ==> r.tmp == t.now && r.fps == Some(t.n) && r.n == 1
    ensures r.tmp == t.tmp ==> r.fps == t.fps && r.n == t.n + 1
    ensures r.(tmp := t.tmp, fps := t.fps, n := t.n) == t
  {
    if t.now - 1000 > t.tmp then t.(tmp := t.now, fps := Some(t.n), n := 1)
    else t.(n := t.n + 1)
  }

  /** One round trip: a posting sendData at `now`, then the worker's step reply. */
  function Cycle(t: Timing, now: int): Timing
  {
    CountStep(Tick(t, now))
  }

  /** The record after round trips whose requests were posted at `sends`. */
  function Run(t: Timing, sends: seq<int>): Timing
    decreases |sends|
  {
    if sends == [] then t else Run(Cycle(t, sends[0]), sends[1..])
  }

  /** The deltas the round trips post, in order. */
  function Deltas(t: Timing, sends: seq<int>): seq<int>
    decreases |sends|
  {
    if sends == [] then [] else [Cycle(t, sends[0]).delta] + Deltas(Cycle(t, sends[0]), sends[1..])
  }

  /** Each posted delta is the time since the previous post, and the run
      ends with thenTime (the record's `then`) at the last post. */
  lemma {:induction false} DeltasAreGaps(t: Timing, sends: seq<int>)
    requires sends != []
    ensures |Deltas(t, sends)| == |sends|
    ensures Deltas(t, sends)[0] == sends[0] - t.thenTime
    ensures forall k :: 0 < k < |sends| ==> Deltas(t, sends)[k] == sends[k] - sends[k - 1]
    ensures Run(t, sends).thenTime == sends[|sends| - 1]
    decreases |sends|
  {
    if |sends| > 1 {
      DeltasAreGaps(Cycle(t, sends[0]), sends[1..]);
    }
  }

  /** The deltas telescope: together they cover exactly the time from the
      thenTime the run started with to the last post. */
  lemma {:induction false} DeltasTelescope(t: Timing, sends: seq<int>)
    requires sends != []
    ensures Sum(Deltas(t, sends)) == sends[|sends| - 1] - t.thenTime
    decreases |sends|
  {
    if |sends| > 1 {
      DeltasTelescope(Cycle(t, sends[0]), sends[1..]);
    }
  }

  /** Round trips posted no later than 1000 ms after the window start only
      count: n grows by one per step and the window and FPS stay. */
  lemma {:induction false} StepsWithinWindow(t: Timing, sends: seq<int>)
    requires forall k :: 0 <= k < |sends| ==> sends[k] - 1000 <= t.tmp
    ensures Run(t, sends).n == t.n + |sends|
    ensures Run(t, sends).tmp == t.tmp && Run(t, sends).fps == t.fps
    decreases |sends|
  {
    if sends != [] {
      StepsWithinWindow(Cycle(t, sends[0]), sends[1..]);
    }
  }

  /** Round trips compose: running a then b is running a + b. */
  lemma {:induction false} RunAppend(t: Timing, a: seq<int>, b: seq<int>)
    ensures Run(t, a + b) == Run(Run(t, a), b)
    decreases |a|
  {
    if a != [] {
      assert (a + b)[1..] == a[1..] + b;
      RunAppend(Cycle(t, a[0]), a[1..], b);
    } else {
      assert a + b == b;
    }
  }

  /** The FPS window: after a rollover at `t.tmp`, if the following steps
      were posted within 1000 ms of it and the next one later, that next
      step reports the number of steps in the window, the rollover step
      included, and opens a new window at its own time. */
  lemma FpsWindow(t: Timing, window: seq<int>, last: int)
    requires t.n == 1
    requires forall k :: 0 <= k < |window| ==> window[k] - 1000 <= t.tmp
    requires last - 1000 > t.tmp
    ensures Run(t, window + [last]).fps == Some(|window| + 1)
    ensures Run(t, window + [last]).n == 1
    ensures Run(t, window + [last]).tmp == last
  {
    RunAppend(t, window, [last]);
    StepsWithinWindow(t, window);
  }

  /** `set`'s update of the record: the period changes only when an fps is
      given, autoFps becomes the given flag or false, and the clock itself
      is untouched. */
  function SetTiming(t: Timing, fps: Option<int>, autoFps: Option<bool>): (r: Timing)
    ensures r.(timerate := t.timerate, autoFps := t.autoFps) == t
    ensures fps.None? ==> r.timerate == t.timerate
    ensures fps.Some? && fps.value != 0 ==> r.timerate == Ms(1000.0 / fps.value as real)
    ensures fps == Some(0) ==> r.timerate == Infinite
    ensures autoFps.Some? ==> r.autoFps == autoFps
    ensures autoFps.None? ==> r.autoFps == Some(false)
  {
    t.(timerate := if fps.Some? then RateOf(fps.value) else t.timerate,
       autoFps := Some(autoFps.GetOr(false)))
  }
}
