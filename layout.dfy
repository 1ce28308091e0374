/** The shared-buffer layout planned by `initArray`: five slots (rigid
    bodies, contacts, characters, cars, soft-body points) laid end to end in
    one flat Float32 buffer. `lng` is ArLng, `pos` is ArPos, `max` is ArMax. */
module Layout {
  import opened Js
  import opened Sums

  /** The capacity hints (`Counts`); None is an absent property. */
  datatype Counts = Counts(
    maxBody: Option<int>,
    maxContact: Option<int>,
    maxCharacter: Option<int>,
    maxCar: Option<int>,
    maxSoftPoint: Option<int>)

  const NoCounts := Counts(None, None, None, None, None)

  datatype BufferLayout = BufferLayout(lng: seq<int>, pos: seq<int>, max: int)

  /** Scalars per record, slot by slot. */
  const Strides: seq<int> := [8, 1, 8, 56, 3]

  /** The capacity a slot gets when its hint is absent or 0. */
  const DefaultCounts: seq<int> := [1400, 200, 10, 14, 8192]

  function HintList(c: Counts): seq<Option<int>>
  {
    [c.maxBody, c.maxContact, c.maxCharacter, c.maxCar, c.maxSoftPoint]
  }

  /** A hint the caller may give: absent, or a non-negative count. */
  predicate HintOk(h: Option<int>)
  {
    h.None? || h.value >= 0
  }

  predicate HintsNonNegative(c: Counts)
  {
    HintOk(c.maxBody) && HintOk(c.maxContact) && HintOk(c.maxCharacter)
    && HintOk(c.maxCar) && HintOk(c.maxSoftPoint)
  }

  /** initArray: each slot is `(hint || default) * stride` long, each slot
      starts where the previous one ends, and ArMax is where the last ends. */
  function InitArray(c: Counts): (l: BufferLayout)
    ensures |l.lng| == 5 && |l.pos| == 5
    ensures forall k :: 0 <= k < 5 ==> l.lng[k] == NumberOr(HintList(c)[k], DefaultCounts[k]) * Strides[k]
    ensures l.pos[0] == 0
    ensures forall k :: 0 <= k < 4 ==> l.pos[k + 1] == l.pos[k] + l.lng[k]
    ensures l.max == l.pos[4] + l.lng[4]
  {
    var maxBody := NumberOr(c.maxBody, 1400);
    var maxContact := NumberOr(c.maxContact, 200);
    var maxCharacter := NumberOr(c.maxCharacter, 10);
    var maxCar := NumberOr(c.maxCar, 14);
    var maxSoftPoint := NumberOr(c.maxSoftPoint, 8192);
    var lng := [maxBody * 8, maxContact, maxCharacter * 8, maxCar * 56, maxSoftPoint * 3];
    var pos := [
      0,
      lng[0],
      lng[0] + lng[1],
      lng[0] + lng[1] + lng[2],
      lng[0] + lng[1] + lng[2] + lng[3]
    ];
    BufferLayout(lng, pos, lng[0] + lng[1] + lng[2] + lng[3] + lng[4])
  }

  /** Reference definition of a contiguous layout: slot k starts at the sum
      of the lengths of the slots before it. */
  function Offsets(lng: seq<int>): seq<int>
  {
    seq(|lng|, k requires 0 <= k < |lng| => Sum(lng[..k]))
  }

  /** Buffer index x lies in slot k of a layout given by its lengths. */
  predicate InSlot(lng: seq<int>, k: int, x: int)
    requires 0 <= k < |lng|
  {
    Sum(lng[..k]) <= x < Sum(lng[..k]) + lng[k]
  }

  /** Index x lies in slot k of a planned layout. */
  predicate Holds(l: BufferLayout, k: int, x: int)
    requires 0 <= k < |l.pos| && k < |l.lng|
  {
    l.pos[k] <= x < l.pos[k] + l.lng[k]
  }

  /** initArray's offsets are the prefix sums of its lengths and ArMax is
      their total. */
  lemma InitArrayIsPrefixSums(c: Counts)
    ensures InitArray(c).pos == Offsets(InitArray(c).lng)
    ensures InitArray(c).max == Sum(InitArray(c).lng)
  {
    var l := InitArray(c);
    assert l.lng[..0] == [];
    SumPrefixStep(l.lng, 0);
    SumPrefixStep(l.lng, 1);
    SumPrefixStep(l.lng, 2);
    SumPrefixStep(l.lng, 3);
    SumPrefixStep(l.lng, 4);
    assert l.lng[..5] == l.lng;
  }

  /** With non-negative lengths, every slot ends no later than any later slot begins. */
  lemma SlotsOrdered(lng: seq<int>, i: int, j: int)
    requires NonNegative(lng)
    requires 0 <= i < j < |lng|
    ensures Sum(lng[..i]) + lng[i] <= Sum(lng[..j])
  {
    SumPrefixStep(lng, i);
    assert lng[..j] == lng[..i + 1] + lng[i + 1..j];
    SumAppend(lng[..i + 1], lng[i + 1..j]);
    assert NonNegative(lng[i + 1..j]);
    SumNonNegative(lng[i + 1..j]);
  }

  /** With non-negative lengths, every index below the total lies in some slot. */
  lemma {:induction false} SlotCover(lng: seq<int>, x: int)
    requires NonNegative(lng)
    requires 0 <= x < Sum(lng)
    ensures exists k :: 0 <= k < |lng| && InSlot(lng, k, x)
  {
    var n := |lng|;
    var init := lng[..n - 1];
    assert lng == init + [lng[n - 1]];
    SumAppend(init, [lng[n - 1]]);
    if x < Sum(init) {
      assert NonNegative(init);
      SlotCover(init, x);
      var k :| 0 <= k < |init| && InSlot(init, k, x);
      assert init[..k] == lng[..k];
      assert InSlot(lng, k, x);
    } else {
      assert InSlot(lng, n - 1, x);
    }
  }

  /** With non-negative lengths, no index lies in two slots. */
  lemma SlotUnique(lng: seq<int>, x: int, k1: int, k2: int)
    requires NonNegative(lng)
    requires 0 <= k1 < |lng| && 0 <= k2 < |lng|
    requires InSlot(lng, k1, x) && InSlot(lng, k2, x)
    ensures k1 == k2
  {
    if k1 < k2 {
      SlotsOrdered(lng, k1, k2);
    } else if k2 < k1 {
      SlotsOrdered(lng, k2, k1);
    }
  }

  /** For non-negative hints no slot is empty (a 0 hint takes the default)
      and the slots follow one another in order without overlapping. */
  lemma SlotsNonEmptyAndOrdered(c: Counts)
    requires HintsNonNegative(c)
    ensures forall k :: 0 <= k < 5 ==> InitArray(c).lng[k] > 0
    ensures forall i, j :: 0 <= i < j < 5 ==> InitArray(c).pos[i] + InitArray(c).lng[i] <= InitArray(c).pos[j]
    ensures InitArray(c).pos[4] + InitArray(c).lng[4] == InitArray(c).max
  {
    var l := InitArray(c);
    InitArrayIsPrefixSums(c);
    assert NonNegative(l.lng);
    forall i, j | 0 <= i < j < 5
      ensures l.pos[i] + l.lng[i] <= l.pos[j]
    {
      SlotsOrdered(l.lng, i, j);
    }
  }

  /** For non-negative hints the five slots partition [0, ArMax): each buffer
      index belongs to exactly one slot. */
  lemma LayoutPartitionsBuffer(c: Counts, x: int)
    requires HintsNonNegative(c)
    requires 0 <= x < InitArray(c).max
    ensures exists k :: 0 <= k < 5 && Holds(InitArray(c), k, x)
    ensures forall k1, k2 :: 0 <= k1 < 5 && 0 <= k2 < 5 && Holds(InitArray(c), k1, x) && Holds(InitArray(c), k2, x) ==> k1 == k2
  {
    var l := InitArray(c);
    InitArrayIsPrefixSums(c);
    SlotsNonEmptyAndOrdered(c);
    assert NonNegative(l.lng);
    SlotCover(l.lng, x);
    var k :| 0 <= k < 5 && InSlot(l.lng, k, x);
    assert Holds(l, k, x);
    forall k1, k2 | 0 <= k1 < 5 && 0 <= k2 < 5 && Holds(l, k1, x) && Holds(l, k2, x)
      ensures k1 == k2
    {
      assert InSlot(l.lng, k1, x) && InSlot(l.lng, k2, x);
      SlotUnique(l.lng, x, k1, k2);
    }
  }

  /** A 0 hint plans exactly the layout an absent hint does. */
  lemma ZeroHintIsAbsentHint(c: Counts)
    ensures InitArray(c.(maxBody := Some(0))) == InitArray(c.(maxBody := None))
    ensures InitArray(c.(maxContact := Some(0))) == InitArray(c.(maxContact := None))
    ensures InitArray(c.(maxCharacter := Some(0))) == InitArray(c.(maxCharacter := None))
    ensures InitArray(c.(maxCar := Some(0))) == InitArray(c.(maxCar := None))
    ensures InitArray(c.(maxSoftPoint := Some(0))) == InitArray(c.(maxSoftPoint := None))
  {
    SameCountsSameLayout(c.(maxBody := Some(0)), c.(maxBody := None));
    SameCountsSameLayout(c.(maxContact := Some(0)), c.(maxContact := None));
    SameCountsSameLayout(c.(maxCharacter := Some(0)), c.(maxCharacter := None));
    SameCountsSameLayout(c.(maxCar := Some(0)), c.(maxCar := None));
    SameCountsSameLayout(c.(maxSoftPoint := Some(0)), c.(maxSoftPoint := None));
  }

  /** The layout depends on the hints only through the counts `||` picks. */
  lemma SameCountsSameLayout(c1: Counts, c2: Counts)
    requires NumberOr(c1.maxBody, 1400) == NumberOr(c2.maxBody, 1400)
    requires NumberOr(c1.maxContact, 200) == NumberOr(c2.maxContact, 200)
    requires NumberOr(c1.maxCharacter, 10) == NumberOr(c2.maxCharacter, 10)
    requires NumberOr(c1.maxCar, 14) == NumberOr(c2.maxCar, 14)
    requires NumberOr(c1.maxSoftPoint, 8192) == NumberOr(c2.maxSoftPoint, 8192)
    ensures InitArray(c1) == InitArray(c2)
  {
  }

  /** `{maxBody: 2}`: the rigid-body slot is offset 0, length 16, and the
      other slots keep their default sizes. */
  lemma TwoBodies()
    ensures InitArray(NoCounts.(maxBody := Some(2))).pos[0] == 0
    ensures InitArray(NoCounts.(maxBody := Some(2))).lng == [16, 200, 80, 784, 24576]
    ensures InitArray(NoCounts.(maxBody := Some(2))).max == 25656
  {
  }

  /** With no hints the buffer holds 1400*8 + 200 + 10*8 + 14*56 + 8192*3 scalars. */
  lemma DefaultSize()
    ensures InitArray(NoCounts).max == 36840
    ensures InitArray(NoCounts).pos == [0, 11200, 11400, 11480, 12264]
  {
  }
}
