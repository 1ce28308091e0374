/** The bookkeeping of a break (`makeBreak` / `addDebris`): debris names,
    the decremented subdivision level, which pieces stay breakable, and
    the registry after the original is replaced by its debris. */
module Fragments {
  import opened Js
  import opened Router
  import opened Bodies

  /** The decimal digit for d. */
  function DigitChar(d: nat): char
    requires d < 10
  {
    ('0' as int + d) as char
  }

  /** `String(n)` for a non-negative integer: its decimal digits. */
  function NatToString(n: nat): (s: string)
    ensures |s| >= 1
    decreases n
  {
    if n < 10 then [DigitChar(n)] else NatToString(n / 10) + [DigitChar(n % 10)]
  }

  lemma {:induction false} NatToStringInjective(a: nat, b: nat)
    requires NatToString(a) == NatToString(b)
    ensures a == b
    decreases a
  {
    var sa, sb := NatToString(a), NatToString(b);
    if a < 10 && b < 10 {
      assert DigitChar(a) == sa[0] == sb[0] == DigitChar(b);
    } else if a >= 10 && b >= 10 {
      assert DigitChar(a % 10) == sa[|sa| - 1] == sb[|sb| - 1] == DigitChar(b % 10);
      assert NatToString(a / 10) == sa[..|sa| - 1] == sb[..|sb| - 1] == NatToString(b / 10);
      NatToStringInjective(a / 10, b / 10);
    } else {
      // one is a single digit and the other has at least two
      assert false;
    }
  }

  /** The name of debris piece `id` of `name`: name + '_debris' + id. */
  function DebrisName(name: string, id: nat): (r: string)
    ensures StartsWith(r, name + "_debris") && |r| > |name| + 7
  {
    name + "_debris" + NatToString(id)
  }

  /** After the parent's name and `_debris` comes the piece's index in decimal. */
  lemma DebrisNameSuffix(name: string, id: nat)
    ensures DebrisName(name, id)[|name| + 7..] == NatToString(id)
  {
    var pre := name + "_debris";
    assert |pre| == |name| + 7;
    assert DebrisName(name, id) == pre + NatToString(id);
  }

  /** Piece 12 of 'box' is named 'box_debris12'. */
  lemma DebrisNameExample()
    ensures DebrisName("box", 12) == "box_debris12"
  {
    assert NatToString(1) == "1";
    assert NatToString(12) == NatToString(1) + [DigitChar(2)] == "12";
  }

  /** Debris names are distinct from each other and from their parent. */
  lemma DebrisNameInjective(name: string, i: nat, j: nat)
    ensures DebrisName(name, i) == DebrisName(name, j) <==> i == j
    ensures DebrisName(name, i) != name
  {
    var pre := name + "_debris";
    if DebrisName(name, i) == DebrisName(name, j) {
      assert NatToString(i) == DebrisName(name, i)[|pre|..] == DebrisName(name, j)[|pre|..] == NatToString(j);
      NatToStringInjective(i, j);
    }
    assert |DebrisName(name, i)| > |name|;
  }

  /** The names of debris pieces lo .. hi-1. */
  function DebrisNames(name: string, lo: nat, hi: nat): set<string>
  {
    set j: nat | lo <= j < hi :: DebrisName(name, j)
  }

  /** A break with k pieces introduces exactly k distinct names. */
  lemma DebrisNamesCount(name: string, k: nat)
    ensures |DebrisNames(name, 0, k)| == k
  {
    DebrisNamesCountFrom(name, 0, k);
  }

  lemma {:induction false} DebrisNamesCountFrom(name: string, lo: nat, hi: nat)
    requires lo <= hi
    ensures |DebrisNames(name, lo, hi)| == hi - lo
    decreases hi - lo
  {
    if lo < hi {
      DebrisNamesCountFrom(name, lo + 1, hi);
      DebrisNamesStep(name, lo, hi);
    } else {
      assert DebrisNames(name, lo, hi) == {};
    }
  }

  /** `breakOption[3] -= 1`: one subdivision level is used up. */
  function Decremented(bo: seq<int>): (r: seq<int>)
    requires |bo| >= 4
    ensures |r| == |bo| && r[3] == bo[3] - 1
    ensures forall k :: 0 <= k < |bo| && k != 3 ==> r[k] == bo[k]
  {
    bo[3 := bo[3] - 1]
  }

  /** The descriptor `addDebris` builds for piece `id`, given the already
      decremented options `bo`: a convex body carrying the piece's material,
      shape, pose, mass and velocities, breakable (with the same options)
      exactly when levels remain. */
  function DebrisDescriptor(name: string, id: nat, piece: Piece, bo: seq<int>): (d: Descriptor)
    requires |bo| >= 4
    ensures d.name == DebrisName(name, id) && d.ty == Some("convex")
    ensures d.breakable <==> bo[3] > 0
    ensures d.breakOption.Some? <==> bo[3] > 0
    ensures d.breakOption.Some? ==> d.breakOption.value == bo
    ensures d.material == piece.material && d.shape == piece.geometry
    ensures d.pos == Some(piece.pos) && d.quat == Some(piece.quat)
    ensures d.mass == piece.mass && d.linearVelocity == piece.velocity
    ensures d.angularVelocity == piece.angularVelocity && d.margin == 0.05
  {
    var o := Descriptor(
      DebrisName(name, id), Some("convex"), piece.material, piece.geometry,
      Some(piece.pos), Some(piece.quat), piece.mass, piece.velocity, piece.angularVelocity,
      0.05, false, None);
    if bo[3] > 0 then o.(breakable := true, breakOption := Some(bo)) else o
  }

  /** The registry after registering pieces |debris|-1 down to lo, in the
      order of `while (i--)`. */
  function DebrisRegistered(reg: Registry, name: string, debris: seq<Piece>, bo: seq<int>, lo: nat): (r: Registry)
    requires |bo| >= 4 && lo <= |debris|
    ensures reg.Keys <= r.Keys
    ensures forall j :: lo <= j < |debris| ==> DebrisName(name, j) in r
    decreases |debris| - lo
  {
    if lo == |debris| then reg
    else DebrisRegistered(reg, name, debris, bo, lo + 1)[DebrisName(name, lo) := DebrisDescriptor(name, lo, debris[lo], bo)]
  }

  /** Registering debris lo.. adds exactly their names, each bound to its
      own piece's descriptor, and leaves every other name alone. */
  lemma DebrisRegisteredSpec(reg: Registry, name: string, debris: seq<Piece>, bo: seq<int>, lo: nat)
    requires |bo| >= 4 && lo <= |debris|
    ensures DebrisRegistered(reg, name, debris, bo, lo).Keys == reg.Keys + DebrisNames(name, lo, |debris|)
    ensures forall j: nat :: lo <= j < |debris| ==>
      DebrisRegistered(reg, name, debris, bo, lo)[DebrisName(name, j)] == DebrisDescriptor(name, j, debris[j], bo)
    ensures forall k :: k in reg && k !in DebrisNames(name, lo, |debris|) ==>
      DebrisRegistered(reg, name, debris, bo, lo)[k] == reg[k]
  {
    DebrisRegisteredKeys(reg, name, debris, bo, lo);
    DebrisRegisteredBinds(reg, name, debris, bo, lo);
    DebrisRegisteredKeeps(reg, name, debris, bo, lo);
  }

  lemma {:induction false} DebrisRegisteredKeys(reg: Registry, name: string, debris: seq<Piece>, bo: seq<int>, lo: nat)
    requires |bo| >= 4 && lo <= |debris|
    ensures DebrisRegistered(reg, name, debris, bo, lo).Keys == reg.Keys + DebrisNames(name, lo, |debris|)
    decreases |debris| - lo
  {
    if lo < |debris| {
      DebrisRegisteredKeys(reg, name, debris, bo, lo + 1);
      DebrisNamesStep(name, lo, |debris|);
    } else {
      assert DebrisNames(name, lo, |debris|) == {};
    }
  }

  lemma {:induction false} DebrisRegisteredBinds(reg: Registry, name: string, debris: seq<Piece>, bo: seq<int>, lo: nat)
    requires |bo| >= 4 && lo <= |debris|
    ensures forall j: nat :: lo <= j < |debris| ==>
      DebrisRegistered(reg, name, debris, bo, lo)[DebrisName(name, j)] == DebrisDescriptor(name, j, debris[j], bo)
    decreases |debris| - lo
  {
    if lo < |debris| {
      DebrisRegisteredBinds(reg, name, debris, bo, lo + 1);
      forall j: nat | lo < j < |debris|
        ensures DebrisName(name, j) != DebrisName(name, lo)
      {
        DebrisNameInjective(name, j, lo);
      }
    }
  }

  lemma {:induction false} DebrisRegisteredKeeps(reg: Registry, name: string, debris: seq<Piece>, bo: seq<int>, lo: nat)
    requires |bo| >= 4 && lo <= |debris|
    ensures forall k :: k in reg && k !in DebrisNames(name, lo, |debris|) ==>
      DebrisRegistered(reg, name, debris, bo, lo)[k] == reg[k]
    decreases |debris| - lo
  {
    if lo < |debris| {
      DebrisRegisteredKeeps(reg, name, debris, bo, lo + 1);
      DebrisNamesStep(name, lo, |debris|);
    }
  }

  /** The names of pieces lo..hi-1 are piece lo's name, which is new, and
      the names of pieces lo+1..hi-1. */
  lemma DebrisNamesStep(name: string, lo: nat, hi: nat)
    requires lo < hi
    ensures DebrisNames(name, lo, hi) == DebrisNames(name, lo + 1, hi) + {DebrisName(name, lo)}
    ensures DebrisName(name, lo) !in DebrisNames(name, lo + 1, hi)
  {
    if DebrisName(name, lo) in DebrisNames(name, lo + 1, hi) {
      var j: nat :| lo + 1 <= j < hi && DebrisName(name, j) == DebrisName(name, lo);
      DebrisNameInjective(name, j, lo);
    }
  }

  /** The registry after breaking `name` into `debris` with the decremented
      options `bo`: the original is gone, exactly |debris| new names are
      present, each bound to its piece, each breakable iff a level remains,
      and all other names keep their bodies. */
  lemma BreakSpec(reg: Registry, name: string, debris: seq<Piece>, bo: seq<int>)
    requires |bo| >= 4
    ensures var r := DebrisRegistered(reg - {name}, name, debris, bo, 0);
      && name !in r
      && r.Keys == (reg.Keys - {name}) + DebrisNames(name, 0, |debris|)
      && |DebrisNames(name, 0, |debris|)| == |debris|
      && (forall j: nat :: j < |debris| ==> r[DebrisName(name, j)] == DebrisDescriptor(name, j, debris[j], bo))
      && (forall j: nat :: j < |debris| ==> (r[DebrisName(name, j)].breakable <==> bo[3] > 0))
      && (forall k :: k in reg && k != name && k !in DebrisNames(name, 0, |debris|) ==> r[k] == reg[k])
  {
    DebrisRegisteredSpec(reg - {name}, name, debris, bo, 0);
    DebrisNamesCount(name, |debris|);
    forall j: nat | j < |debris|
      ensures DebrisName(name, j) != name
    {
      DebrisNameInjective(name, j, j);
    }
  }

  /** The options a debris piece receives from a break with options `b`:
      the decremented options while a level remains, else none. */
  function NextGeneration(b: seq<int>): (r: Option<seq<int>>)
    requires |b| >= 4
  {
    var d := Decremented(b);
    if d[3] > 0 then Some(d) else None
  }

  /** The options carried by a piece `depth` breaks below an original
      broken with options `bo`, when each later break uses the options its
      target carries; None once a generation is no longer breakable. */
  function Generation(bo: seq<int>, depth: nat): (r: Option<seq<int>>)
    requires |bo| >= 4
    ensures r.Some? ==> |r.value| == |bo|
  {
    if depth == 0 then Some(bo)
    else
      match Generation(bo, depth - 1)
      case None => None
      case Some(b) => NextGeneration(b)
  }

  /** A debris descriptor carries the next generation's options. */
  lemma DebrisCarriesNextGeneration(name: string, id: nat, piece: Piece, b: seq<int>)
    requires |b| >= 4
    ensures DebrisDescriptor(name, id, piece, Decremented(b)).breakOption == NextGeneration(b)
  {
  }

  /** Starting from level n = bo[3], the pieces at depth d >= 1 are
      breakable iff n - d > 0, and then carry level n - d; so no piece at
      depth n or deeper is breakable and fragmentation stops. */
  lemma {:induction false} GenerationLevel(bo: seq<int>, depth: nat)
    requires |bo| >= 4 && depth >= 1
    ensures Generation(bo, depth).Some? <==> bo[3] - depth > 0
    ensures Generation(bo, depth).Some? ==> Generation(bo, depth).value == bo[3 := bo[3] - depth]
  {
    if depth > 1 {
      GenerationLevel(bo, depth - 1);
    }
  }

  /** Breaking with level 1 leaves every piece unbreakable. */
  lemma LevelOneLeavesNothingBreakable(name: string, debris: seq<Piece>, bo: seq<int>)
    requires |bo| >= 4 && bo[3] == 1
    ensures forall j: nat :: j < |debris| ==> !DebrisDescriptor(name, j, debris[j], Decremented(bo)).breakable
  {
  }
}
