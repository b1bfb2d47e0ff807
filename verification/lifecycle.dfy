// From deactivation to permanent deletion (libs/core/mitup_bot/lifecycle.py, the predicates of
// apps/events/mitup_bot/events/ and the stamps of libs/data/mitup_bot/models/meetups.py), with windows
// that depend on a tier the owner may change at any time.
module Lifecycle {
  import opened Wrappers
  import opened Supporter

  // Seconds.
  const DAY := 86400

  datatype LifecyclePolicy = LifecyclePolicy(
    datelessLifetime: int, inactiveRetention: int, maxDuration: int, deletionWarningLead: int)

  const FREE_POLICY := LifecyclePolicy(90 * DAY, 90 * DAY, 7 * DAY, 7 * DAY)
  const PATRON_POLICY := LifecyclePolicy(365 * DAY, 365 * DAY, 7 * DAY, 7 * DAY)

  function PolicyOf(level: SupporterLevel): LifecyclePolicy {
    match level
    case NoLevel | Host1 => FREE_POLICY
    case Host2 | Host3 => PATRON_POLICY
  }

  function DeletionWarningDelay(policy: LifecyclePolicy): int {
    policy.inactiveRetention - policy.deletionWarningLead
  }

  type DurationOf = LifecyclePolicy -> int

  // ---- Grouped windows ----

  // The levels of `levels` that run on `duration`, in order.
  function LevelsOn(levels: seq<SupporterLevel>, durationOf: DurationOf, duration: int): seq<SupporterLevel> {
    if levels == [] then []
    else
      var n := |levels| - 1;
      LevelsOn(levels[..n], durationOf, duration)
      + if durationOf(PolicyOf(levels[n])) == duration then [levels[n]] else []
  }

  ghost predicate GroupedBy(grouped: map<int, seq<SupporterLevel>>, levels: seq<SupporterLevel>,
      durationOf: DurationOf) {
    && (forall level <- levels :: durationOf(PolicyOf(level)) in grouped)
    && (forall duration <- grouped :: LevelsOn(levels, durationOf, duration) != [])
    && forall duration <- grouped :: grouped[duration] == LevelsOn(levels, durationOf, duration)
  }

  // The dict and the order its keys were first seen in.
  method LevelsByDuration(durationOf: DurationOf) returns (grouped: map<int, seq<SupporterLevel>>, keys: seq<int>)
    ensures GroupedBy(grouped, LEVEL_ORDER, durationOf)
    ensures forall duration :: duration in keys <==> duration in grouped
  {
    grouped, keys := map[], [];
    var i := 0;
    while i < |LEVEL_ORDER|
      invariant 0 <= i <= |LEVEL_ORDER|
      invariant GroupedBy(grouped, LEVEL_ORDER[..i], durationOf)
      invariant forall duration :: duration in keys <==> duration in grouped
    {
      var level := LEVEL_ORDER[i];
      var duration := durationOf(PolicyOf(level));
      OneLevelMore(LEVEL_ORDER[..i], level, durationOf);
      assert LEVEL_ORDER[..i + 1] == LEVEL_ORDER[..i] + [level];
      if duration !in grouped {
        NoneOn(LEVEL_ORDER[..i], durationOf, duration);
        keys := keys + [duration];
      }
      grouped := grouped[duration := (if duration in grouped then grouped[duration] else []) + [level]];
      i := i + 1;
    }
    assert LEVEL_ORDER[..i] == LEVEL_ORDER;
  }

  lemma OneLevelMore(levels: seq<SupporterLevel>, level: SupporterLevel, durationOf: DurationOf)
    ensures forall duration :: LevelsOn(levels + [level], durationOf, duration)
                            == LevelsOn(levels, durationOf, duration)
                               + if durationOf(PolicyOf(level)) == duration then [level] else []
  {
    assert (levels + [level])[..|levels|] == levels;
  }

  lemma {:induction false} NoneOn(levels: seq<SupporterLevel>, durationOf: DurationOf, duration: int)
    requires forall level <- levels :: durationOf(PolicyOf(level)) != duration
    ensures LevelsOn(levels, durationOf, duration) == []
  {
    if levels != [] {
      NoneOn(levels[..|levels| - 1], durationOf, duration);
    }
  }

  lemma {:induction false} OnMeans(levels: seq<SupporterLevel>, durationOf: DurationOf, duration: int,
      level: SupporterLevel)
    ensures level in LevelsOn(levels, durationOf, duration)
        <==> level in levels && durationOf(PolicyOf(level)) == duration
  {
    if levels != [] {
      var n := |levels| - 1;
      assert levels == levels[..n] + [levels[n]];
      OnMeans(levels[..n], durationOf, duration, level);
    }
  }

  // Whole days, or `None` for the error a sub-day remainder raises.
  function IntervalDays(duration: int): (days: Option<int>)
    ensures days.None? <==> forall n: int :: n * 86400 != duration
    ensures days.Some? ==> days.value * 86400 == duration
  {
    assert duration == duration / DAY * DAY + duration % DAY;
    if duration % DAY != 0 then None else Some(duration / DAY)
  }

  // The SQL condition over the groups: one branch per distinct duration. A comparison with a missing
  // stamp is not true.
  ghost predicate GroupedWindowElapsed(grouped: map<int, seq<SupporterLevel>>, level: SupporterLevel,
      stamp: Option<int>, now: int) {
    exists duration <- grouped ::
      level in grouped[duration] && IntervalDays(duration).Some? && stamp.Some?
      && stamp.value + IntervalDays(duration).value * DAY < now
  }

  // The statement can be built: no window has a sub-day remainder.
  ghost predicate Renderable(grouped: map<int, seq<SupporterLevel>>) {
    forall duration <- grouped :: IntervalDays(duration).Some?
  }

  predicate WindowElapsed(level: SupporterLevel, durationOf: DurationOf, stamp: Option<int>, now: int) {
    stamp.Some? && stamp.value + durationOf(PolicyOf(level)) < now
  }

  // Grouping the levels changes nothing: the condition is the lookup of the owner's own duration, and it
  // can be built exactly when every tier's duration is whole days.
  lemma GroupingIsTheLookup(grouped: map<int, seq<SupporterLevel>>, durationOf: DurationOf, level: SupporterLevel,
      stamp: Option<int>, now: int)
    requires GroupedBy(grouped, LEVEL_ORDER, durationOf)
    ensures Renderable(grouped) <==> forall l :: IntervalDays(durationOf(PolicyOf(l))).Some?
    ensures Renderable(grouped) ==>
              (GroupedWindowElapsed(grouped, level, stamp, now) <==> WindowElapsed(level, durationOf, stamp, now))
  {
    forall l
      ensures l in LEVEL_ORDER && durationOf(PolicyOf(l)) in grouped && l in grouped[durationOf(PolicyOf(l))]
    {
      assert LEVEL_ORDER[Rank(l)] == l;
      OnMeans(LEVEL_ORDER, durationOf, durationOf(PolicyOf(l)), l);
    }
    forall duration | duration in grouped
      ensures exists l :: durationOf(PolicyOf(l)) == duration
    {
      var l := grouped[duration][0];
      assert l in grouped[duration];
      OnMeans(LEVEL_ORDER, durationOf, duration, l);
    }
    forall duration | duration in grouped && level in grouped[duration]
      ensures duration == durationOf(PolicyOf(level))
    {
      OnMeans(LEVEL_ORDER, durationOf, duration, level);
    }
  }

  // The window each level runs on, in whole days, read off the same groups.
  method ResolvedWindows(durationOf: DurationOf) returns (windows: Option<map<SupporterLevel, int>>)
    ensures windows.Some? <==> forall l :: IntervalDays(durationOf(PolicyOf(l))).Some?
    ensures windows.Some? ==>
              forall l :: l in windows.value && IntervalDays(durationOf(PolicyOf(l))) == Some(windows.value[l])
  {
    var grouped, keys := LevelsByDuration(durationOf);
    GroupsCover(grouped, durationOf);
    var resolved: map<SupporterLevel, int> := map[];
    var i := 0;
    while i < |keys|
      invariant 0 <= i <= |keys|
      invariant forall l :: l in resolved <==> durationOf(PolicyOf(l)) in keys[..i]
      invariant forall l <- resolved :: IntervalDays(durationOf(PolicyOf(l))) == Some(resolved[l])
    {
      var days := IntervalDays(keys[i]);
      if days.None? {
        ghost var l := grouped[keys[i]][0];
        assert l in grouped[keys[i]];
        assert IntervalDays(durationOf(PolicyOf(l))).None?;
        return None;
      }
      assert keys[..i + 1] == keys[..i] + [keys[i]];
      resolved := resolved + map level | level in grouped[keys[i]] :: days.value;
      i := i + 1;
    }
    assert keys[..i] == keys;
    windows := Some(resolved);
  }

  lemma GroupsCover(grouped: map<int, seq<SupporterLevel>>, durationOf: DurationOf)
    requires GroupedBy(grouped, LEVEL_ORDER, durationOf)
    ensures forall l :: durationOf(PolicyOf(l)) in grouped
    ensures forall duration, l | duration in grouped :: l in grouped[duration] <==> durationOf(PolicyOf(l)) == duration
    ensures forall duration <- grouped :: grouped[duration] != []
  {
    forall l
      ensures durationOf(PolicyOf(l)) in grouped
    {
      assert LEVEL_ORDER[Rank(l)] == l;
    }
    forall duration, l | duration in grouped
      ensures l in grouped[duration] <==> durationOf(PolicyOf(l)) == duration
    {
      assert LEVEL_ORDER[Rank(l)] == l;
      OnMeans(LEVEL_ORDER, durationOf, duration, l);
    }
  }

  // ---- A meeting on its way out ----

  // The stamps of a meeting. The deactivation sets `expirationTime`, the warning the other two.
  datatype Stamps = Stamps(active: bool, expirationTime: Option<int>, notified: bool, warnedTime: Option<int>)

  predicate Warnable(s: Stamps, level: SupporterLevel, now: int) {
    !s.notified && WindowElapsed(level, DeletionWarningDelay, s.expirationTime, now)
  }

  predicate Deletable(s: Stamps, level: SupporterLevel, now: int) {
    && s.notified && s.expirationTime.Some?
    && WindowElapsed(level, (p: LifecyclePolicy) => p.inactiveRetention, s.expirationTime, now)
    && WindowElapsed(level, (p: LifecyclePolicy) => p.deletionWarningLead, s.warnedTime, now)
  }

  function Later(a: Option<int>, b: Option<int>): Option<int> {
    if a.None? then b else if b.None? then a else if a.value >= b.value then a else b
  }

  function Gate(stamp: Option<int>, duration: int): Option<int> {
    if stamp.None? then None else Some(stamp.value + duration)
  }

  function DeletionDueTime(s: Stamps, level: SupporterLevel): Option<int> {
    Later(Gate(s.expirationTime, PolicyOf(level).inactiveRetention),
        Gate(s.warnedTime, PolicyOf(level).deletionWarningLead))
  }

  // How long an inactive meeting is kept, in seconds.
  function Retention(level: SupporterLevel): int {
    (if Meets(level, Host2) then 365 else 90) * 86400
  }

  // In days: a meeting is warned about a week before its retention ends, and deleted once that has ended
  // and a week has passed since the warning.
  lemma SweepsInDays(s: Stamps, level: SupporterLevel, now: int)
    ensures Warnable(s, level, now) <==>
              !s.notified && s.expirationTime.Some? && now > s.expirationTime.value + Retention(level) - 7 * 86400
    ensures Deletable(s, level, now) <==>
              && s.notified && s.expirationTime.Some? && s.warnedTime.Some?
              && now > s.expirationTime.value + Retention(level) && now > s.warnedTime.value + 7 * 86400
  {
  }

  // The date shown for a warned meeting is the one the sweep applies exactly when both stamps are set:
  // the sweep takes no meeting that lacks one, while the date is then that of the other.
  lemma DueTimeIsTheSweepsIff(s: Stamps, level: SupporterLevel)
    requires s.notified && DeletionDueTime(s, level).Some?
    ensures (forall now :: Deletable(s, level, now) <==> now > DeletionDueTime(s, level).value)
       <==> s.expirationTime.Some? && s.warnedTime.Some?
  {
    var due := DeletionDueTime(s, level).value;
    if s.expirationTime.None? || s.warnedTime.None? {
      assert !Deletable(s, level, due + 1);
    }
  }

  // A tier change moves the dates of the meetings the owner already has, in the direction of the tier.
  lemma HigherTierNeverDeletesSooner(s: Stamps, low: SupporterLevel, high: SupporterLevel, now: int)
    requires Meets(high, low)
    ensures Deletable(s, high, now) ==> Deletable(s, low, now)
    ensures Warnable(s, high, now) ==> Warnable(s, low, now)
  {
  }

  // ---- Runs ----

  datatype Event =
    | Deactivate
    | Reactivate
    | WarningSweep(settled: bool)
    | DeletionSweep(settled: bool)
    | OwnerTierChanges(level: SupporterLevel)

  datatype Step = Step(now: int, event: Event)

  datatype Meeting = Meeting(stamps: Stamps, level: SupporterLevel, deleted: bool)

  const FRESH := Stamps(true, None, false, None)

  predicate Warns(m: Meeting, s: Step) {
    s.event.WarningSweep? && s.event.settled && !m.deleted && Warnable(m.stamps, m.level, s.now)
  }

  predicate Deletes(m: Meeting, s: Step) {
    s.event.DeletionSweep? && s.event.settled && !m.deleted && Deletable(m.stamps, m.level, s.now)
  }

  function Next(m: Meeting, s: Step): Meeting {
    if m.deleted then m
    else
      match s.event
      case Deactivate =>
        if m.stamps.active then m.(stamps := m.stamps.(active := false, expirationTime := Some(s.now))) else m
      case Reactivate => if m.stamps.active then m else m.(stamps := FRESH)
      case WarningSweep(_) =>
        if Warns(m, s) then m.(stamps := m.stamps.(notified := true, warnedTime := Some(s.now))) else m
      case DeletionSweep(_) => if Deletes(m, s) then m.(deleted := true) else m
      case OwnerTierChanges(level) => m.(level := level)
  }

  function Run(m: Meeting, ss: seq<Step>): Meeting {
    if ss == [] then m else Next(Run(m, ss[..|ss| - 1]), ss[|ss| - 1])
  }

  // What each event does to a meeting that is still there.
  lemma EventsTakeEffect(m: Meeting, s: Step)
    requires !m.deleted
    ensures var after := Next(m, s);
            match s.event
            case Deactivate =>
              after == if m.stamps.active
                  then m.(stamps := Stamps(false, Some(s.now), m.stamps.notified, m.stamps.warnedTime)) else m
            case Reactivate => after == if m.stamps.active then m else m.(stamps := Stamps(true, None, false, None))
            case WarningSweep(settled) =>
              var warned := Stamps(m.stamps.active, m.stamps.expirationTime, true, Some(s.now));
              after == if settled && Warnable(m.stamps, m.level, s.now) then m.(stamps := warned) else m
            case DeletionSweep(settled) =>
              after.deleted == (settled && Deletable(m.stamps, m.level, s.now)) && after.(deleted := false) == m
            case OwnerTierChanges(level) => after == m.(level := level)
  {
  }

  // The last deactivation and the last warning of the run, as far as they were not undone; -1 for none.
  function LastDeactivation(m: Meeting, ss: seq<Step>): (j: int)
    ensures -1 <= j < |ss|
  {
    if ss == [] then -1
    else
      var n := |ss| - 1;
      var was := Run(m, ss[..n]);
      if was.deleted then LastDeactivation(m, ss[..n])
      else if ss[n].event.Deactivate? && was.stamps.active then n
      else if ss[n].event.Reactivate? && !was.stamps.active then -1
      else LastDeactivation(m, ss[..n])
  }

  function LastWarning(m: Meeting, ss: seq<Step>): (j: int)
    ensures -1 <= j < |ss|
  {
    if ss == [] then -1
    else
      var n := |ss| - 1;
      var was := Run(m, ss[..n]);
      if Warns(was, ss[n]) then n
      else if ss[n].event.Reactivate? && !was.deleted && !was.stamps.active then -1
      else LastWarning(m, ss[..n])
  }

  function TimeOf(ss: seq<Step>, j: int): Option<int>
    requires -1 <= j < |ss|
  {
    if j < 0 then None else Some(ss[j].now)
  }

  // The stamps are the times of those two steps, and the two marks of a warning are never apart.
  lemma {:induction false} StampsTellTheRun(level: SupporterLevel, ss: seq<Step>)
    ensures var start := Meeting(FRESH, level, false);
            var end := Run(start, ss);
            && end.stamps.expirationTime == TimeOf(ss, LastDeactivation(start, ss))
            && end.stamps.warnedTime == TimeOf(ss, LastWarning(start, ss))
            && (end.stamps.notified <==> end.stamps.warnedTime.Some?)
            && (end.stamps.active <==> end.stamps.expirationTime.None?)
            && (end.stamps.warnedTime.Some? ==>
                  LastDeactivation(start, ss) < LastWarning(start, ss) && !end.stamps.active)
  {
    if ss != [] {
      StampsTellTheRun(level, ss[..|ss| - 1]);
    }
  }

  // What LastWarning promises about the step it names, and about everything after it.
  lemma {:induction false} WarningStands(m: Meeting, ss: seq<Step>)
    requires LastWarning(m, ss) >= 0
    ensures var j := LastWarning(m, ss);
            && Warns(Run(m, ss[..j]), ss[j])
            && forall k | j < k < |ss| :: !Reactivates(Run(m, ss[..k]), ss[k])
  {
    var n := |ss| - 1;
    var j := LastWarning(m, ss);
    if j < n {
      WarningStands(m, ss[..n]);
      assert ss[..n][..j] == ss[..j];
      forall k | j < k < |ss|
        ensures !Reactivates(Run(m, ss[..k]), ss[k])
      {
        if k < n {
          assert ss[..n][..k] == ss[..k];
        }
      }
    }
  }

  predicate Reactivates(m: Meeting, s: Step) {
    s.event.Reactivate? && !m.deleted && !m.stamps.active
  }

  // However the owner's tier moves in between, a meeting is only deleted after it was deactivated, then
  // warned about when the tier of that moment allowed it, and never reactivated since; and the deletion
  // comes a full lead after the warning and a full retention of the present tier after the deactivation.
  lemma NeverDeletedUnwarned(level: SupporterLevel, ss: seq<Step>, i: nat)
    requires i < |ss| && Deletes(Run(Meeting(FRESH, level, false), ss[..i]), ss[i])
    ensures var start := Meeting(FRESH, level, false);
            var d, w := LastDeactivation(start, ss[..i]), LastWarning(start, ss[..i]);
            && 0 <= d < w < i
            && ss[d].event.Deactivate? && Warns(Run(start, ss[..w]), ss[w])
            && (forall k | w < k < i :: !Reactivates(Run(start, ss[..k]), ss[k]))
            && ss[i].now > ss[w].now + 7 * 86400
            && ss[i].now > ss[d].now + Retention(Run(start, ss[..i]).level)
  {
    var start := Meeting(FRESH, level, false);
    StampsTellTheRun(level, ss[..i]);
    WarningStands(start, ss[..i]);
    var w := LastWarning(start, ss[..i]);
    assert ss[..i][..w] == ss[..w];
    forall k | w < k < i
      ensures !Reactivates(Run(start, ss[..k]), ss[k])
    {
      assert ss[..i][..k] == ss[..k];
    }
    DeactivationIsOne(start, ss[..i]);
  }

  lemma {:induction false} DeactivationIsOne(m: Meeting, ss: seq<Step>)
    requires LastDeactivation(m, ss) >= 0
    ensures ss[LastDeactivation(m, ss)].event.Deactivate?
  {
    var n := |ss| - 1;
    if LastDeactivation(m, ss) < n {
      DeactivationIsOne(m, ss[..n]);
    }
  }

  // ---- The sweeps over an owner chunk ----

  datatype Delivery = Delivered | Unreachable | OptedOut | SendRaised

  // Only a send that raised defers the meetings of a digest.
  predicate Settled(delivery: Delivery) {
    delivery != SendRaised
  }

  class Owner {
    var supporterLevel: SupporterLevel
    // What becomes of the one digest the sweep sends this owner.
    const delivery: Delivery

    constructor (supporterLevel: SupporterLevel, delivery: Delivery)
      ensures this.supporterLevel == supporterLevel && this.delivery == delivery
    {
      this.supporterLevel, this.delivery := supporterLevel, delivery;
    }
  }

  class Meetup {
    const owner: Owner
    var active: bool
    var expirationTime: Option<int>
    var expirationNotificationSent: bool
    var warnedTime: Option<int>

    constructor (owner: Owner)
      ensures this.owner == owner && View().stamps == FRESH
    {
      this.owner := owner;
      active, expirationTime, expirationNotificationSent, warnedTime := true, None, false, None;
    }

    function View(): Meeting
      reads this, owner
    {
      Meeting(Stamps(active, expirationTime, expirationNotificationSent, warnedTime), owner.supporterLevel, false)
    }

    method RecordDeletionWarning(now: int)
      modifies this`expirationNotificationSent, this`warnedTime
      ensures View().stamps == old(View()).stamps.(notified := true, warnedTime := Some(now))
    {
      expirationNotificationSent := true;
      warnedTime := Some(now);
    }

    method ClearDeletionWarning()
      modifies this`expirationNotificationSent, this`warnedTime
      ensures View().stamps == old(View()).stamps.(notified := false, warnedTime := None)
    {
      expirationNotificationSent := false;
      warnedTime := None;
    }

    method Reactivate(now: int)
      requires !active
      modifies this
      ensures View() == Next(old(View()), Step(now, Event.Reactivate))
      ensures active && expirationTime == None && !expirationNotificationSent && warnedTime == None
    {
      active := true;
      expirationTime := None;
      ClearDeletionWarning();
    }
  }

  ghost predicate AllDistinct(meetups: seq<Meetup>) {
    forall i, j | 0 <= i < j < |meetups| :: meetups[i] != meetups[j]
  }

  // The step of a warning sweep for a meeting, given what became of its owner's digest.
  function SweepStep(m: Meetup, now: int): Step {
    Step(now, WarningSweep(Settled(m.owner.delivery)))
  }

  predicate IsPurged(m: Meetup, now: int)
    reads m, m.owner
  {
    Deletes(m.View(), Step(now, DeletionSweep(Settled(m.owner.delivery))))
  }

  // Every meeting of the chunk takes the step of a warning sweep: those it nominates are stamped unless the
  // digest to their owner raised, the others are left alone.
  method WarnOwnerChunk(meetups: seq<Meetup>, now: int)
    requires AllDistinct(meetups)
    modifies meetups
    ensures forall m <- meetups :: m.View() == Next(old(m.View()), SweepStep(m, now))
    ensures forall m <- meetups ::
              var stamped := m.owner.delivery != SendRaised && old(Warnable(m.View().stamps, m.View().level, now));
              && (stamped ==> m.expirationNotificationSent && m.warnedTime == Some(now))
              && (!stamped ==> m.View() == old(m.View()))
  {
    var i := 0;
    while i < |meetups|
      invariant 0 <= i <= |meetups|
      invariant forall k | 0 <= k < i ::
                  meetups[k].View() == Next(old(meetups[k].View()), SweepStep(meetups[k], now))
      invariant forall k | i <= k < |meetups| :: meetups[k].View() == old(meetups[k].View())
    {
      var m := meetups[i];
      assert m in meetups;
      if Warnable(m.View().stamps, m.owner.supporterLevel, now) && Settled(m.owner.delivery) {
        m.RecordDeletionWarning(now);
      }
      i := i + 1;
    }
  }

  // Exactly the meetings a deletion sweep takes are gone from the chunk; the others stay in order.
  method DeleteOwnerChunk(meetups: seq<Meetup>, now: int) returns (kept: seq<Meetup>, purged: seq<Meetup>)
    requires AllDistinct(meetups)
    ensures forall m :: m in purged <==>
              m in meetups && m.owner.delivery != SendRaised && Deletable(m.View().stamps, m.owner.supporterLevel, now)
    ensures forall m :: m in kept <==> m in meetups && m !in purged
  {
    kept, purged := [], [];
    var i := 0;
    while i < |meetups|
      invariant 0 <= i <= |meetups|
      invariant forall m :: m in purged <==> m in meetups[..i] && IsPurged(m, now)
      invariant forall m :: m in kept <==> m in meetups[..i] && !IsPurged(m, now)
    {
      var m := meetups[i];
      assert meetups[..i + 1] == meetups[..i] + [m];
      if Deletable(m.View().stamps, m.owner.supporterLevel, now) && Settled(m.owner.delivery) {
        purged := purged + [m];
      } else {
        kept := kept + [m];
      }
      i := i + 1;
    }
    assert meetups[..i] == meetups;
  }
}
