// The longest a meeting may run, on the wall clocks of its zone (libs/core/mitup_bot/limits.py). Wall
// clocks are read back as section "Guidelines for New tzinfo Implementations" of PEP 495 has it.
module Calendar {
  import opened Lifecycle

  // Seconds. A zone starts at one offset and moves to another at each transition.
  datatype Transition = Transition(at: int, offset: int)
  datatype Zone = Zone(first: int, transitions: seq<Transition>)

  function Offset(z: Zone, period: nat): int
    requires period <= |z.transitions|
  {
    if period == 0 then z.first else z.transitions[period - 1].offset
  }

  function Shift(z: Zone, i: nat): nat
    requires i < |z.transitions|
  {
    var d := Offset(z, i + 1) - Offset(z, i);
    if d < 0 then -d else d
  }

  // No two transitions come so close that their wall clocks could interleave.
  ghost predicate Separated(z: Zone) {
    forall i | 0 <= i < |z.transitions| - 1 :: Apart(z, i)
  }

  predicate Apart(z: Zone, i: nat)
    requires i < |z.transitions| - 1
  {
    z.transitions[i + 1].at - z.transitions[i].at > Shift(z, i) + Shift(z, i + 1)
  }

  // How many of `xs` are at most `x`, for increasing `xs`: the `bisect_right` of a sorted list.
  function Bisect(xs: seq<int>, x: int): (k: nat)
    ensures k <= |xs| && (k > 0 ==> xs[k - 1] <= x) && forall i | k <= i < |xs| :: x < xs[i]
  {
    if xs == [] then 0
    else
      var n := |xs| - 1;
      if xs[n] <= x then n + 1 else Bisect(xs[..n], x)
  }

  ghost predicate Increasing(xs: seq<int>) {
    forall i, j | 0 <= i < j < |xs| :: xs[i] < xs[j]
  }

  lemma BisectIs(xs: seq<int>, x: int, k: nat)
    requires Increasing(xs) && k <= |xs|
    requires k > 0 ==> xs[k - 1] <= x
    requires k < |xs| ==> x < xs[k]
    ensures Bisect(xs, x) == k
  {
  }

  function Instants(z: Zone): (ts: seq<int>)
    ensures |ts| == |z.transitions| && forall i | 0 <= i < |ts| :: ts[i] == z.transitions[i].at
  {
    seq(|z.transitions|, i requires 0 <= i < |z.transitions| => z.transitions[i].at)
  }

  // The wall clock at which a transition is taken to happen: the later reading of it for fold 0, the
  // earlier one for fold 1.
  function WallClock(z: Zone, i: nat, fold: nat): int
    requires i < |z.transitions|
  {
    var before, after := Offset(z, i), Offset(z, i + 1);
    z.transitions[i].at + if (fold == 0) == (before >= after) then before else after
  }

  function WallClocks(z: Zone, fold: nat): (ws: seq<int>)
    ensures |ws| == |z.transitions| && forall i | 0 <= i < |ws| :: ws[i] == WallClock(z, i, fold)
  {
    seq(|z.transitions|, i requires 0 <= i < |z.transitions| => WallClock(z, i, fold))
  }

  // What the clocks of the zone show at an instant.
  function Local(z: Zone, utc: int): int {
    utc + Offset(z, Bisect(Instants(z), utc))
  }

  // The instant a wall clock is read as.
  function ToUtc(z: Zone, wall: int, fold: nat): int {
    wall - Offset(z, Reading(z, wall, fold))
  }

  const MAX_DURATION := FREE_POLICY.maxDuration

  predicate WithinMaxDuration(z: Zone, start: int, end: int) {
    Local(z, end) - Local(z, start) <= MAX_DURATION
  }

  function Min(a: int, b: int): int {
    if a <= b then a else b
  }

  function EarlierReading(z: Zone, wall: int): int {
    Min(ToUtc(z, wall, 0), ToUtc(z, wall, 1))
  }

  function LatestEnd(z: Zone, start: int): int {
    EarlierReading(z, Local(z, start) + MAX_DURATION)
  }

  // ---- How a wall clock reads ----

  // Transitions come in order, and so do their wall clocks, whichever way each is read.
  lemma {:induction false} ClocksInOrder(z: Zone, i: nat, j: nat)
    requires Separated(z) && i < j < |z.transitions|
    ensures z.transitions[i].at + Shift(z, i) < z.transitions[j].at - Shift(z, j) + Offset(z, j) - Offset(z, i + 1)
    ensures z.transitions[i].at < z.transitions[j].at
    ensures forall fold, fold' :: WallClock(z, i, fold) < WallClock(z, j, fold')
    decreases j - i
  {
    assert Apart(z, j - 1);
    if i < j - 1 {
      ClocksInOrder(z, i, j - 1);
    }
  }

  lemma ClocksIncrease(z: Zone)
    requires Separated(z)
    ensures Increasing(Instants(z)) && Increasing(WallClocks(z, 0)) && Increasing(WallClocks(z, 1))
  {
    forall i, j | 0 <= i < j < |z.transitions|
      ensures Instants(z)[i] < Instants(z)[j] && WallClocks(z, 0)[i] < WallClocks(z, 0)[j]
          && WallClocks(z, 1)[i] < WallClocks(z, 1)[j]
    {
      ClocksInOrder(z, i, j);
    }
  }

  // The period a wall clock is read in.
  function Reading(z: Zone, wall: int, fold: nat): (k: nat)
    ensures k <= |z.transitions|
  {
    Bisect(WallClocks(z, fold), wall)
  }

  lemma ReadingIsBetween(z: Zone, wall: int, fold: nat)
    ensures var k := Reading(z, wall, fold);
            && (k > 0 ==> WallClock(z, k - 1, fold) <= wall)
            && (k < |z.transitions| ==> wall < WallClock(z, k, fold))
  {
  }

  // The two folds read a wall clock in the same period or in the two around one transition.
  lemma FoldsAreAdjacent(z: Zone, wall: int)
    requires Separated(z)
    ensures Reading(z, wall, 0) <= Reading(z, wall, 1) <= Reading(z, wall, 0) + 1
  {
    var k0, k1 := Reading(z, wall, 0), Reading(z, wall, 1);
    ReadingIsBetween(z, wall, 0);
    ReadingIsBetween(z, wall, 1);
    if k1 < k0 {
      if k1 < k0 - 1 {
        ClocksInOrder(z, k1, k0 - 1);
      }
    } else if k1 > k0 + 1 {
      ClocksInOrder(z, k0, k1 - 1);
    }
  }

  predicate InPeriod(z: Zone, utc: int, k: nat)
    requires k <= |z.transitions|
  {
    && (k > 0 ==> z.transitions[k - 1].at <= utc)
    && (k < |z.transitions| ==> utc < z.transitions[k].at)
  }

  // The clocks are at the offset of the last transition that has come.
  lemma PeriodIs(z: Zone, utc: int, k: nat)
    requires Separated(z) && k <= |z.transitions| && InPeriod(z, utc, k)
    ensures Local(z, utc) == utc + Offset(z, k)
  {
    ClocksIncrease(z);
    BisectIs(Instants(z), utc, k);
  }

  lemma SomePeriod(z: Zone, utc: int) returns (k: nat)
    ensures k <= |z.transitions| && InPeriod(z, utc, k) && Local(z, utc) == utc + Offset(z, k)
  {
    k := Bisect(Instants(z), utc);
  }

  // What a period shows is read back in it by one of the folds.
  lemma ReadBack(z: Zone, utc: int, k: nat)
    requires Separated(z) && k <= |z.transitions| && InPeriod(z, utc, k)
    ensures var wall := utc + Offset(z, k); k == Reading(z, wall, 0) || k == Reading(z, wall, 1)
  {
    NotReadAfter(z, utc, k);
    NotReadBefore(z, utc, k);
    FoldsAreAdjacent(z, utc + Offset(z, k));
  }

  lemma NotReadAfter(z: Zone, utc: int, k: nat)
    requires Separated(z) && k <= |z.transitions| && InPeriod(z, utc, k)
    ensures Reading(z, utc + Offset(z, k), 0) <= k
  {
    var wall := utc + Offset(z, k);
    var k0 := Reading(z, wall, 0);
    ReadingIsBetween(z, wall, 0);
    if k < |z.transitions| {
      LaterReadingOfBoth(z, k);
    }
    if k + 1 < k0 {
      ClocksInOrder(z, k, k0 - 1);
    }
  }

  lemma NotReadBefore(z: Zone, utc: int, k: nat)
    requires Separated(z) && k <= |z.transitions| && InPeriod(z, utc, k)
    ensures Reading(z, utc + Offset(z, k), 1) >= k
  {
    var wall := utc + Offset(z, k);
    if k > 0 {
      LaterReadingOfBoth(z, k - 1);
      assert WallClocks(z, 1)[k - 1] <= wall;
    }
  }

  // Fold 0 takes the later wall clock of a transition, fold 1 the earlier.
  lemma LaterReadingOfBoth(z: Zone, i: nat)
    requires i < |z.transitions|
    ensures var at := z.transitions[i].at;
            && WallClock(z, i, 0) >= at + Offset(z, i) && WallClock(z, i, 0) >= at + Offset(z, i + 1)
            && WallClock(z, i, 1) <= at + Offset(z, i) && WallClock(z, i, 1) <= at + Offset(z, i + 1)
  {
  }

  // An instant that shows `wall` is one of its two readings.
  lemma ShownInAFold(z: Zone, utc: int, wall: int) returns (k: nat)
    requires Separated(z) && Local(z, utc) == wall
    ensures k == Reading(z, wall, 0) || k == Reading(z, wall, 1)
    ensures InPeriod(z, utc, k) && utc == wall - Offset(z, k)
  {
    k := SomePeriod(z, utc);
    ReadBack(z, utc, k);
  }

  // What the clocks show at an instant is read back as that instant by one of the folds.
  lemma EveryInstantReadsBack(z: Zone, utc: int)
    requires Separated(z)
    ensures utc in {ToUtc(z, Local(z, utc), 0), ToUtc(z, Local(z, utc), 1)}
  {
    var k := ShownInAFold(z, utc, Local(z, utc));
  }

  // Some instant shows this wall clock.
  ghost predicate Shown(z: Zone, wall: int) {
    exists utc :: Local(z, utc) == wall
  }

  // Read in one period by both folds, a wall clock is shown exactly there.
  lemma PlainWallClock(z: Zone, wall: int)
    requires Separated(z) && Reading(z, wall, 0) == Reading(z, wall, 1)
    ensures ToUtc(z, wall, 0) == ToUtc(z, wall, 1) && Local(z, ToUtc(z, wall, 0)) == wall
  {
    ReadingIsBetween(z, wall, 0);
    ReadingIsBetween(z, wall, 1);
    PeriodIs(z, ToUtc(z, wall, 0), Reading(z, wall, 0));
  }

  // Around a transition that sets the clocks back it is shown twice, and fold 0 is the first time.
  lemma RepeatedWallClock(z: Zone, wall: int)
    requires Separated(z) && Reading(z, wall, 0) < Reading(z, wall, 1)
    requires Offset(z, Reading(z, wall, 0)) > Offset(z, Reading(z, wall, 1))
    ensures ToUtc(z, wall, 0) < ToUtc(z, wall, 1) && Local(z, ToUtc(z, wall, 0)) == wall
  {
    FoldsAreAdjacent(z, wall);
    var k := Reading(z, wall, 0);
    ReadingIsBetween(z, wall, 0);
    ReadingIsBetween(z, wall, 1);
    if k > 0 {
      assert Apart(z, k - 1);
    }
    PeriodIs(z, ToUtc(z, wall, 0), k);
  }

  // Around one that sets them forward it is skipped, and the folds read it after and before the gap.
  lemma SkippedWallClock(z: Zone, wall: int)
    requires Separated(z) && Reading(z, wall, 0) < Reading(z, wall, 1)
    requires Offset(z, Reading(z, wall, 0)) <= Offset(z, Reading(z, wall, 1))
    ensures ToUtc(z, wall, 1) < ToUtc(z, wall, 0)
    ensures Local(z, ToUtc(z, wall, 1)) < wall < Local(z, ToUtc(z, wall, 0))
    ensures !Shown(z, wall)
  {
    FoldsAreAdjacent(z, wall);
    var k := Reading(z, wall, 0);
    ReadingIsBetween(z, wall, 0);
    ReadingIsBetween(z, wall, 1);
    if k > 0 {
      assert Apart(z, k - 1);
    }
    if k + 1 < |z.transitions| {
      assert Apart(z, k);
    }
    PeriodIs(z, ToUtc(z, wall, 1), k);
    PeriodIs(z, ToUtc(z, wall, 0), k + 1);
    SkippedIsNotShown(z, wall);
  }

  lemma SkippedIsNotShown(z: Zone, wall: int)
    requires Separated(z) && Reading(z, wall, 0) < Reading(z, wall, 1)
    requires Offset(z, Reading(z, wall, 0)) <= Offset(z, Reading(z, wall, 1))
    ensures !Shown(z, wall)
  {
    FoldsAreAdjacent(z, wall);
    ReadingIsBetween(z, wall, 0);
    ReadingIsBetween(z, wall, 1);
    forall utc | Local(z, utc) == wall
      ensures false
    {
      var _ := ShownInAFold(z, utc, wall);
    }
  }

  // The cap is a week of wall-clock time, both ends read on the clocks of the zone.
  lemma CapIsAWeek(z: Zone, start: int, end: int)
    ensures WithinMaxDuration(z, start, end) <==> Local(z, end) <= Local(z, start) + 7 * 86400
  {
  }

  lemma EarlierReadingShows(z: Zone, wall: int)
    requires Separated(z)
    ensures Local(z, EarlierReading(z, wall)) <= wall
    ensures Local(z, EarlierReading(z, wall)) == wall <==> Shown(z, wall)
    ensures Local(z, ToUtc(z, wall, 0)) <= wall <==> Shown(z, wall)
  {
    FoldsAreAdjacent(z, wall);
    if Reading(z, wall, 0) == Reading(z, wall, 1) {
      PlainWallClock(z, wall);
    } else if Offset(z, Reading(z, wall, 0)) > Offset(z, Reading(z, wall, 1)) {
      RepeatedWallClock(z, wall);
    } else {
      SkippedWallClock(z, wall);
    }
  }

  // One full cap after any start, read back, is an end the cap admits, in every zone. It shows the wall
  // clock asked for exactly when the clocks do not skip it.
  lemma LatestEndIsAdmitted(z: Zone, start: int)
    requires Separated(z)
    ensures WithinMaxDuration(z, start, LatestEnd(z, start))
    ensures var wall := Local(z, start) + 7 * 86400; Local(z, LatestEnd(z, start)) == wall <==> Shown(z, wall)
  {
    var wall := Local(z, start) + MAX_DURATION;
    var end := LatestEnd(z, start);
    EarlierReadingShows(z, wall);
    assert end == EarlierReading(z, wall) && Local(z, end) <= wall;
  }

  // No earlier instant shows that wall clock.
  lemma LatestEndIsTheFirstPass(z: Zone, start: int, utc: int)
    requires Separated(z) && Local(z, utc) == Local(z, start) + MAX_DURATION
    ensures LatestEnd(z, start) <= utc
  {
    EarlierReadingIsFirst(z, Local(z, utc), utc);
  }

  lemma EarlierReadingIsFirst(z: Zone, wall: int, utc: int)
    requires Separated(z) && Local(z, utc) == wall
    ensures EarlierReading(z, wall) <= utc
  {
    var k := ShownInAFold(z, utc, wall);
    assert utc == ToUtc(z, wall, 0) || utc == ToUtc(z, wall, 1);
  }

  // Reading with fold 0 alone is not enough: it passes the cap exactly when the clocks do not skip the
  // wall clock.
  lemma FirstFoldPassesIffShown(z: Zone, start: int)
    requires Separated(z)
    ensures var wall := Local(z, start) + MAX_DURATION;
            WithinMaxDuration(z, start, ToUtc(z, wall, 0)) <==> Shown(z, wall)
  {
    EarlierReadingShows(z, Local(z, start) + MAX_DURATION);
  }
}
