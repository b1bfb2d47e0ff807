// What decides how long a supporter keeps the tier: the Patreon link (apps/bot/mitup_bot/patreon_link.py),
// the membership webhook (apps/bot/mitup_bot/web/patreon.py), the daily passes
// (apps/events/mitup_bot/events/supporter_check.py) and the operator's grant.
module Entitlements {
  import opened Wrappers
  import opened Supporter

  // Seconds on one clock.
  const DAY := 86400
  const SUPPORT_GRACE := 7 * DAY

  // The subscription row of a linked user.
  datatype Row = Row(patreonUserId: string, supportExpiration: Option<int>, expirationNotified: bool)

  // A user's tier, the granted floor beneath it, and the row when an account is linked.
  datatype Account = Account(level: SupporterLevel, floor: SupporterLevel, row: Option<Row>)

  // ---- The writers ----

  predicate Above(level: SupporterLevel, floor: SupporterLevel) {
    !Meets(floor, level)
  }

  // The tier a membership event stands for.
  function TargetLevel(deleted: bool, activePatron: bool, cents: int, config: PatreonConfig): (target: SupporterLevel)
    ensures target == NoLevel <==> deleted || !activePatron
    ensures target != NoLevel ==> target == LevelForAmount(cents, config)
  {
    if deleted || !activePatron then NoLevel else LevelForAmount(cents, config)
  }

  // A confirmed paying tier: applied at once and never under the floor, with a fresh runway if it changes
  // anything.
  function Confirmed(a: Account, target: SupporterLevel, now: int): Account
    requires a.row.Some?
  {
    var effective := Highest(target, a.floor);
    if a.level == effective then a
    else a.(level := effective, row := Some(Row(a.row.value.patreonUserId, Some(now + SUPPORT_GRACE), false)))
  }

  // The user is told that the perks end when the runway does.
  function Noticed(a: Account, now: int): Account
    requires a.row.Some?
  {
    a.(row := Some(Row(a.row.value.patreonUserId, Some(now + SUPPORT_GRACE), true)))
  }

  function Transition(a: Account, target: SupporterLevel, now: int): Account
    requires a.row.Some?
  {
    if IsSupporter(target) then Confirmed(a, target, now)
    else if Above(a.level, a.floor) then Noticed(a, now)
    else a
  }

  datatype DueOutcome = Extended | GraceStarted | SupportLost

  function DueStep(a: Account, active: bool): DueOutcome
    requires a.row.Some?
  {
    if active then Extended else if a.row.value.expirationNotified then SupportLost else GraceStarted
  }

  function Advanced(a: Account, active: bool, now: int): Account
    requires a.row.Some?
  {
    var id := a.row.value.patreonUserId;
    match DueStep(a, active)
    case Extended => a.(row := Some(Row(id, Some(now + SUPPORT_GRACE), false)))
    case GraceStarted => Noticed(a, now)
    case SupportLost => a.(level := a.floor, row := Some(Row(id, None, true)))
  }

  // The link keeps the mark of an earlier notice on a row it updates.
  function Linked(a: Account, patreonUserId: string, granted: SupporterLevel, now: int): Account {
    var expiration := if IsSupporter(granted) then Some(now + SUPPORT_GRACE) else None;
    var notified := a.row.Some? && a.row.value.expirationNotified;
    Account(Highest(granted, a.floor), a.floor, Some(Row(patreonUserId, expiration, notified)))
  }

  // An operator's grant: a linked user's level only moves up.
  function Granted(a: Account, floor: SupporterLevel): Account {
    a.(level := if a.row.Some? then Highest(a.level, floor) else floor, floor := floor)
  }

  // ---- Steps ----

  datatype Event =
    | Link(patreonUserId: string, granted: SupporterLevel, refused: bool)
    | Webhook(sender: string, deleted: bool, activePatron: bool, cents: int)
    | DuePass(isMember: bool, amounts: map<string, int>)
    | SyncPass(isMember: bool, amounts: map<string, int>)
    | Grant(floor: SupporterLevel)
    | Unlink

  datatype Step = Step(now: int, event: Event)

  predicate IsDue(a: Account, isMember: bool, now: int) {
    isMember && a.row.Some? && a.row.value.supportExpiration.Some? && a.row.value.supportExpiration.value <= now
  }

  function Next(a: Account, s: Step, config: PatreonConfig): Account {
    match s.event
    case Link(id, granted, refused) => if refused then a else Linked(a, id, granted, s.now)
    case Webhook(sender, deleted, activePatron, cents) =>
      if a.row.Some? && a.row.value.patreonUserId == sender
      then Transition(a, TargetLevel(deleted, activePatron, cents, config), s.now)
      else a
    case DuePass(isMember, amounts) =>
      if IsDue(a, isMember, s.now) then Advanced(a, a.row.value.patreonUserId in amounts, s.now) else a
    case SyncPass(isMember, amounts) =>
      if isMember && a.row.Some? && a.row.value.patreonUserId in amounts
      then Confirmed(a, LevelForAmount(amounts[a.row.value.patreonUserId], config), s.now)
      else a
    case Grant(floor) => Granted(a, floor)
    case Unlink => if a.row.Some? then a.(level := a.floor, row := None) else a
  }

  function Run(a: Account, ss: seq<Step>, config: PatreonConfig): Account {
    if ss == [] then a else Next(Run(a, ss[..|ss| - 1], config), ss[|ss| - 1], config)
  }

  // Time does not run backwards.
  ghost predicate Timed(ss: seq<Step>) {
    forall i, j | 0 <= i < j < |ss| :: ss[i].now <= ss[j].now
  }

  // ---- What each writer does ----

  // `level` is the higher of two.
  predicate IsHigherOf(level: SupporterLevel, x: SupporterLevel, y: SupporterLevel) {
    level in {x, y} && Meets(level, x) && Meets(level, y)
  }

  const WEEK := 7 * 86400

  // The row looks a week ahead, with or without the mark of a notice.
  predicate RunwayOf(a: Account, id: string, now: int, notified: bool) {
    a.row == Some(Row(id, Some(now + WEEK), notified))
  }

  // A link grants what the account pays for, or the floor if that is higher, with a week of runway for a
  // paying account and none otherwise. A refused one changes nothing.
  lemma LinkGrantsTier(a: Account, id: string, granted: SupporterLevel, now: int, config: PatreonConfig)
    ensures var after := Next(a, Step(now, Link(id, granted, false)), config);
            && IsHigherOf(after.level, granted, a.floor) && after.floor == a.floor
            && after.row.Some? && after.row.value.patreonUserId == id
            && after.row.value.supportExpiration == (if granted == NoLevel then None else Some(now + WEEK))
            && (after.row.value.expirationNotified <==> a.row.Some? && a.row.value.expirationNotified)
    ensures Next(a, Step(now, Link(id, granted, true)), config) == a
  {
  }

  // The patron's webhook: a paying tier is applied at once, a loss of something above the floor keeps the
  // level for a week and marks the notice, and nobody else's webhook does anything.
  lemma WebhookTakesEffect(a: Account, s: Step, config: PatreonConfig)
    requires s.event.Webhook?
    ensures var after := Next(a, s, config);
            var ours := a.row.Some? && a.row.value.patreonUserId == s.event.sender;
            var lost := s.event.deleted || !s.event.activePatron;
            && after.floor == a.floor
            && (!ours ==> after == a)
            && (ours && !lost ==>
                  && IsHigherOf(after.level, LevelForAmount(s.event.cents, config), a.floor)
                  && (if after.level == a.level then after == a else RunwayOf(after, s.event.sender, s.now, false)))
            && (ours && lost ==>
                  && after.level == a.level
                  && (if Meets(a.floor, a.level) then after == a else RunwayOf(after, s.event.sender, s.now, true)))
  {
  }

  // The due pass: members whose runway has ended are extended, told, or taken to the floor; others are
  // left alone.
  lemma DuePassTakesEffect(a: Account, s: Step, config: PatreonConfig)
    requires s.event.DuePass?
    ensures var after := Next(a, s, config);
            var ended := a.row.Some? && a.row.value.supportExpiration.Some?
                && a.row.value.supportExpiration.value <= s.now;
            && after.floor == a.floor
            && (!(ended && s.event.isMember) ==> after == a)
            && (ended && s.event.isMember ==>
                  var id := a.row.value.patreonUserId;
                  if id in s.event.amounts then after.level == a.level && RunwayOf(after, id, s.now, false)
                  else if !a.row.value.expirationNotified then after.level == a.level
                      && RunwayOf(after, id, s.now, true)
                  else after.level == a.floor && after.row == Some(Row(id, None, true)))
  {
  }

  // The level sync: an active patron's member row holds the higher of entitlement and floor, with a fresh
  // week if that changed anything; others are left alone.
  lemma SyncPassTakesEffect(a: Account, s: Step, config: PatreonConfig)
    requires s.event.SyncPass?
    ensures var after := Next(a, s, config);
            var active := a.row.Some? && a.row.value.patreonUserId in s.event.amounts;
            && after.floor == a.floor
            && (!(active && s.event.isMember) ==> after == a)
            && (active && s.event.isMember ==>
                  var id := a.row.value.patreonUserId;
                  && IsHigherOf(after.level, LevelForAmount(s.event.amounts[id], config), a.floor)
                  && (if after.level == a.level then after == a else RunwayOf(after, id, s.now, false)))
  {
  }

  // A grant sets the floor; with an account linked the level only rises, without one it is the floor. An
  // unlink leaves the floor and no row.
  lemma GrantAndUnlinkTakeEffect(a: Account, floor: SupporterLevel, now: int, config: PatreonConfig)
    ensures var after := Next(a, Step(now, Grant(floor)), config);
            && after.floor == floor && after.row == a.row
            && (if a.row.Some? then IsHigherOf(after.level, a.level, floor) else after.level == floor)
    ensures a.row.Some? ==> Next(a, Step(now, Unlink), config) == Account(a.floor, a.floor, None)
    ensures a.row.None? ==> Next(a, Step(now, Unlink), config) == a
  {
  }

  // ---- Nothing below the floor, nothing above it for good ----

  predicate FloorHolds(a: Account) {
    Meets(a.level, a.floor)
  }

  // A tier above the floor has a date on which it is looked at again.
  predicate HasRunway(a: Account) {
    Above(a.level, a.floor) ==> a.row.Some? && a.row.value.supportExpiration.Some?
  }

  predicate Sane(a: Account) {
    FloorHolds(a) && HasRunway(a)
  }

  // A grant lowered under the level of a linked user who has no runway.
  predicate StrandsLevel(a: Account, e: Event) {
    e.Grant? && a.row.Some? && a.row.value.supportExpiration.None? && Above(a.level, e.floor)
  }

  lemma StepKeepsSaneIff(a: Account, s: Step, config: PatreonConfig)
    requires Sane(a)
    ensures FloorHolds(Next(a, s, config))
    ensures HasRunway(Next(a, s, config)) <==> !StrandsLevel(a, s.event)
  {
    match s.event {
      case Link(_, _, _) =>
      case Webhook(_, _, _, _) =>
      case DuePass(_, _) =>
      case SyncPass(_, _) =>
      case Grant(_) =>
      case Unlink =>
    }
  }

  ghost predicate NothingStranded(a: Account, ss: seq<Step>, config: PatreonConfig) {
    forall i | 0 <= i < |ss| :: !StrandsLevel(Run(a, ss[..i], config), ss[i].event)
  }

  lemma StepKeepsFloor(a: Account, s: Step, config: PatreonConfig)
    requires FloorHolds(a)
    ensures FloorHolds(Next(a, s, config))
  {
    match s.event {
      case Link(_, _, _) =>
      case Webhook(_, _, _, _) =>
      case DuePass(_, _) =>
      case SyncPass(_, _) =>
      case Grant(_) =>
      case Unlink =>
    }
  }

  lemma {:induction false} RunKeepsFloor(a: Account, ss: seq<Step>, config: PatreonConfig)
    requires FloorHolds(a)
    ensures FloorHolds(Run(a, ss, config))
  {
    if ss != [] {
      RunKeepsFloor(a, ss[..|ss| - 1], config);
      StepKeepsFloor(Run(a, ss[..|ss| - 1], config), ss[|ss| - 1], config);
    }
  }

  // No tier above the floor is permanent.
  lemma {:induction false} RunKeepsRunway(a: Account, ss: seq<Step>, config: PatreonConfig)
    requires Sane(a) && NothingStranded(a, ss, config)
    ensures Sane(Run(a, ss, config))
  {
    if ss != [] {
      var n := |ss| - 1;
      assert forall i | 0 <= i < n :: ss[..n][..i] == ss[..i];
      RunKeepsRunway(a, ss[..n], config);
      StepKeepsSaneIff(Run(a, ss[..n], config), ss[n], config);
    }
  }

  // A stranded level is never settled by the daily passes while the user is no active patron, for as long
  // as they run.
  lemma {:induction false} StrandedLevelIsNeverSettled(a: Account, floor: SupporterLevel, ss: seq<Step>,
      config: PatreonConfig)
    requires Sane(a) && StrandsLevel(a, Grant(floor))
    requires forall i | 0 <= i < |ss| :: IsDailyPass(ss[i].event) && a.row.value.patreonUserId !in ss[i].event.amounts
    ensures Run(Granted(a, floor), ss, config) == Granted(a, floor) && Above(Granted(a, floor).level, floor)
  {
    if ss != [] {
      StrandedLevelIsNeverSettled(a, floor, ss[..|ss| - 1], config);
    }
  }

  predicate IsDailyPass(e: Event) {
    e.DuePass? || e.SyncPass?
  }

  // ---- No early revocation ----

  predicate IsNotice(a: Account, s: Step, config: PatreonConfig) {
    match s.event
    case Webhook(sender, deleted, activePatron, cents) =>
      && a.row.Some? && a.row.value.patreonUserId == sender
      && TargetLevel(deleted, activePatron, cents, config) == NoLevel && Above(a.level, a.floor)
    case DuePass(isMember, amounts) =>
      IsDue(a, isMember, s.now) && DueStep(a, a.row.value.patreonUserId in amounts) == GraceStarted
    case _ => false
  }

  predicate IsRevocation(a: Account, s: Step) {
    && s.event.DuePass? && IsDue(a, s.event.isMember, s.now)
    && DueStep(a, a.row.value.patreonUserId in s.event.amounts) == SupportLost
  }

  // The last notice of a run, as an index into it.
  function LastNotice(a: Account, ss: seq<Step>, config: PatreonConfig): (j: int)
    ensures -1 <= j < |ss|
  {
    if ss == [] then -1
    else
      var n := |ss| - 1;
      if IsNotice(Run(a, ss[..n], config), ss[n], config) then n else LastNotice(a, ss[..n], config)
  }

  lemma {:induction false} LastNoticeIsOne(a: Account, ss: seq<Step>, config: PatreonConfig)
    ensures var j := LastNotice(a, ss, config); j >= 0 ==> IsNotice(Run(a, ss[..j], config), ss[j], config)
  {
    if ss != [] {
      var front := ss[..|ss| - 1];
      LastNoticeIsOne(a, front, config);
      var j := LastNotice(a, ss, config);
      assert 0 <= j < |front| ==> front[..j] == ss[..j];
    }
  }

  lemma {:induction false} NoticesEndThere(a: Account, ss: seq<Step>, config: PatreonConfig, i: nat)
    requires LastNotice(a, ss, config) < i < |ss|
    ensures !IsNotice(Run(a, ss[..i], config), ss[i], config)
  {
    var front := ss[..|ss| - 1];
    if i < |front| {
      NoticesEndThere(a, front, config, i);
      assert front[..i] == ss[..i];
    }
  }

  // A mark goes back to a notice at `since`, and the runway is at least a full grace period long from there.
  predicate MarkedSince(a: Account, since: Option<int>) {
    a.row.Some? && a.row.value.expirationNotified ==>
      since.Some? && (a.row.value.supportExpiration.Some?
          ==> a.row.value.supportExpiration.value >= since.value + SUPPORT_GRACE)
  }

  lemma StepKeepsMark(a: Account, s: Step, config: PatreonConfig, since: Option<int>)
    requires MarkedSince(a, since) && (since.Some? ==> since.value <= s.now)
    ensures MarkedSince(Next(a, s, config), if IsNotice(a, s, config) then Some(s.now) else since)
  {
    match s.event {
      case Link(_, _, _) =>
      case Webhook(_, _, _, _) =>
      case DuePass(_, _) =>
      case SyncPass(_, _) =>
      case Grant(_) =>
      case Unlink =>
    }
  }

  function NoticeTime(ss: seq<Step>, j: int): Option<int>
    requires -1 <= j < |ss|
  {
    if j < 0 then None else Some(ss[j].now)
  }

  lemma {:induction false} NoticeBehindTheMark(a: Account, ss: seq<Step>, config: PatreonConfig)
    requires a.row.None? && Timed(ss)
    ensures MarkedSince(Run(a, ss, config), NoticeTime(ss, LastNotice(a, ss, config)))
  {
    if ss != [] {
      var front := ss[..|ss| - 1];
      NoticeBehindTheMark(a, front, config);
      StepKeepsMark(Run(a, front, config), ss[|ss| - 1], config, NoticeTime(front, LastNotice(a, front, config)));
    }
  }

  // Whatever links, webhooks, passes and grants happen in between, a tier is only revoked from somebody
  // who is not an active patron and was told at least a full grace period before.
  lemma NoEarlyRevocation(a: Account, ss: seq<Step>, config: PatreonConfig, i: nat)
    requires a.row.None? && Timed(ss) && i < |ss|
    requires IsRevocation(Run(a, ss[..i], config), ss[i])
    ensures var was := Run(a, ss[..i], config);
            var j := LastNotice(a, ss[..i], config);
            && was.row.value.patreonUserId !in ss[i].event.amounts
            && 0 <= j < i && IsNotice(Run(a, ss[..j], config), ss[j], config)
            && ss[i].now >= ss[j].now + WEEK
            && (forall k | j < k < i :: !IsNotice(Run(a, ss[..k], config), ss[k], config))
  {
    NoticeBehindTheMark(a, ss[..i], config);
    var j := LastNotice(a, ss[..i], config);
    LastNoticeIsOne(a, ss[..i], config);
    assert ss[..i][..j] == ss[..j];
    forall k | j < k < i
      ensures !IsNotice(Run(a, ss[..k], config), ss[k], config)
    {
      NoticesEndThere(a, ss[..i], config, k);
      assert ss[..i][..k] == ss[..k];
    }
  }

  // ---- Two weeks of leeway ----

  // How the daily passes may leave a row whose runway ended at `x` at the earliest.
  predicate Leeway(a: Account, x: int) {
    a.row.Some? && (a.row.value.supportExpiration.Some? ==>
      a.row.value.supportExpiration.value >= if a.row.value.expirationNotified then x + SUPPORT_GRACE else x)
  }

  lemma {:induction false} PassesKeepLeeway(a: Account, ss: seq<Step>, config: PatreonConfig, x: int)
    requires Leeway(a, x)
    requires forall i | 0 <= i < |ss| :: IsDailyPass(ss[i].event) && ss[i].now >= x - SUPPORT_GRACE
    ensures Leeway(Run(a, ss, config), x)
  {
    if ss != [] {
      PassesKeepLeeway(a, ss[..|ss| - 1], config, x);
    }
  }

  // A supporter who links gets two grace periods before the daily passes revoke, provided that the row
  // carries no mark of an earlier notice.
  lemma UnmarkedLinkHasTwoPeriods(a: Account, id: string, granted: SupporterLevel, t: int, ss: seq<Step>,
      config: PatreonConfig, i: nat)
    requires IsSupporter(granted) && !(a.row.Some? && a.row.value.expirationNotified)
    requires i < |ss| && forall k | 0 <= k < |ss| :: IsDailyPass(ss[k].event) && ss[k].now >= t
    requires IsRevocation(Run(Linked(a, id, granted, t), ss[..i], config), ss[i])
    ensures ss[i].now >= t + 2 * SUPPORT_GRACE
  {
    PassesKeepLeeway(Linked(a, id, granted, t), ss[..i], config, t + SUPPORT_GRACE);
  }

  // With the mark the first due pass that misses the patron revokes: the link does not clear it.
  lemma FirstMissAfterLink(a: Account, id: string, granted: SupporterLevel, t: int, now: int, 
      amounts: map<string, int>, config: PatreonConfig)
    requires IsSupporter(granted) && now >= t + SUPPORT_GRACE && id !in amounts
    ensures var linked := Linked(a, id, granted, t);
            var pass := Step(now, DuePass(true, amounts));
            var marked := a.row.Some? && a.row.value.expirationNotified;
            && (IsRevocation(linked, pass) <==> marked)
            && (IsNotice(linked, pass, config) <==> !marked)
  {
  }

  // The mark survives a revocation, so a patron who lapsed once and comes back by linking again loses the
  // tier after one period, with no notice since the link.
  lemma ReturningPatronIsNotTold(id: string, floor: SupporterLevel, now: int, config: PatreonConfig)
    requires Above(Host3, floor)
    ensures var start := Account(floor, floor, None);
            var ss := [Step(now, Link(id, Host3, false)),
                       Step(now + 7 * DAY, DuePass(true, map[])),
                       Step(now + 14 * DAY, DuePass(true, map[])),
                       Step(now + 100 * DAY, Link(id, Host3, false)),
                       Step(now + 107 * DAY, DuePass(true, map[]))];
            Timed(ss) && LastNotice(start, ss, config) == 1 && IsRevocation(Run(start, ss[..4], config), ss[4])
  {
    var start := Account(floor, floor, None);
    var ss := [Step(now, Link(id, Host3, false)),
               Step(now + 7 * DAY, DuePass(true, map[])),
               Step(now + 14 * DAY, DuePass(true, map[])),
               Step(now + 100 * DAY, Link(id, Host3, false)),
               Step(now + 107 * DAY, DuePass(true, map[]))];
    assert ss[..0] == [];
    assert ss[..1][..0] == ss[..0];
    assert ss[..2][..1] == ss[..1];
    assert ss[..3][..2] == ss[..2];
    assert ss[..4][..3] == ss[..3];
    assert ss[..5] == ss && ss[..5][..4] == ss[..4];
    assert Run(start, ss[..1], config) == Account(Host3, floor, Some(Row(id, Some(now + 7 * DAY), false)));
    assert Run(start, ss[..2], config) == Account(Host3, floor, Some(Row(id, Some(now + 14 * DAY), true)));
    assert Run(start, ss[..3], config) == Account(floor, floor, Some(Row(id, None, true)));
    assert Run(start, ss[..4], config) == Account(Host3, floor, Some(Row(id, Some(now + 107 * DAY), true)));
    assert LastNotice(start, ss[..2], config) == 1;
    assert LastNotice(start, ss[..3], config) == 1;
    assert LastNotice(start, ss[..4], config) == 1;
  }

  // ---- Settling ----

  // The due pass comes first, then the level sync, over the same roster.
  function DailyRun(a: Account, now: int, amounts: map<string, int>, config: PatreonConfig): Account {
    Next(Next(a, Step(now, DuePass(true, amounts)), config), Step(now, SyncPass(true, amounts)), config)
  }

  // A daily run over an active patron lands on what they pay for, or on the floor if that is higher, and
  // running it again at once changes nothing.
  lemma DailyRunSettlesActivePatron(a: Account, now: int, amounts: map<string, int>, config: PatreonConfig)
    requires a.row.Some? && a.row.value.patreonUserId in amounts
    ensures var settled := DailyRun(a, now, amounts, config);
            && settled.level == Highest(LevelForAmount(amounts[a.row.value.patreonUserId], config), a.floor)
            && settled.floor == a.floor && settled.row.Some?
            && settled.row.value.patreonUserId == a.row.value.patreonUserId
            && !IsDue(settled, true, now) && DailyRun(settled, now, amounts, config) == settled
  {
    var extended := Next(a, Step(now, DuePass(true, amounts)), config);
    assert extended.level == a.level && extended.floor == a.floor && !IsDue(extended, true, now);
  }

  // A daily run over somebody who left the roster takes nothing but what the due pass revokes.
  lemma DailyRunSparesLapsedUntilDue(a: Account, now: int, amounts: map<string, int>, config: PatreonConfig)
    requires a.row.Some? && a.row.value.patreonUserId !in amounts && FloorHolds(a)
    ensures var after := DailyRun(a, now, amounts, config);
            && (after.level == a.level || after.level == a.floor)
            && (after.level != a.level ==> IsRevocation(a, Step(now, DuePass(true, amounts))))
            && (IsRevocation(a, Step(now, DuePass(true, amounts))) ==>
                  after.level == a.floor && !IsDue(after, true, now))
  {
  }

  // A repeated webhook delivery of a paying tier changes nothing more.
  lemma RepeatedGainIsANoOp(a: Account, target: SupporterLevel, now: int, later: int)
    requires a.row.Some? && IsSupporter(target)
    ensures Transition(Transition(a, target, now), target, later) == Transition(a, target, now)
  {
  }

  // ---- The rows as the writers update them ----

  class User {
    var supporterLevel: SupporterLevel
    var grantedSupporterLevel: SupporterLevel
    var deletionRequested: bool
  }

  class SupporterSubscription {
    var patreonUserId: string
    var supportExpiration: Option<int>
    var expirationNotified: bool

    constructor (patreonUserId: string)
      ensures this.patreonUserId == patreonUserId && supportExpiration == None && !expirationNotified
    {
      this.patreonUserId, supportExpiration, expirationNotified := patreonUserId, None, false;
    }
  }

  function View(user: User, subscription: SupporterSubscription?): Account
    reads user, subscription
  {
    Account(user.supporterLevel, user.grantedSupporterLevel,
            if subscription == null then None
            else Some(Row(subscription.patreonUserId, subscription.supportExpiration, subscription.expirationNotified)))
  }

  datatype WebhookApplied = Upgraded | Downgraded | GraceOpened | Unchanged
  datatype ChangeReason =
    | AlreadyAtTargetLevel | LevelHeldByGrant | TierDowngrade | TierUpgrade | NothingToLose | MembershipLostGraceOpened

  method ApplyMembershipTransition(user: User, subscription: SupporterSubscription, target: SupporterLevel, now: int)
    returns (applied: WebhookApplied, reason: ChangeReason)
    modifies user`supporterLevel, subscription`supportExpiration, subscription`expirationNotified
    ensures View(user, subscription) == Transition(old(View(user, subscription)), target, now)
    ensures applied == Upgraded <==> Above(user.supporterLevel, old(user.supporterLevel))
    ensures applied == Downgraded <==> Above(old(user.supporterLevel), user.supporterLevel)
    ensures applied == GraceOpened
        <==> !IsSupporter(target) && Above(old(user.supporterLevel), user.grantedSupporterLevel)
    ensures reason == LevelHeldByGrant ==> applied == Unchanged && user.supporterLevel == user.grantedSupporterLevel
    ensures target != NoLevel ==> IsHigherOf(user.supporterLevel, target, user.grantedSupporterLevel)
    ensures target == NoLevel ==> user.supporterLevel == old(user.supporterLevel)
    ensures applied == Unchanged ==> View(user, subscription) == old(View(user, subscription))
    ensures applied != Unchanged ==>
              && subscription.supportExpiration == Some(now + WEEK)
              && (subscription.expirationNotified <==> applied == GraceOpened)
  {
    var previous := user.supporterLevel;
    if IsSupporter(target) {
      var effective := Highest(target, user.grantedSupporterLevel);
      if previous == effective {
        return Unchanged, if effective == target then AlreadyAtTargetLevel else LevelHeldByGrant;
      }
      user.supporterLevel := effective;
      subscription.supportExpiration := Some(now + SUPPORT_GRACE);
      subscription.expirationNotified := false;
      if Meets(previous, effective) {
        return Downgraded, TierDowngrade;
      }
      return Upgraded, TierUpgrade;
    }
    if Meets(user.grantedSupporterLevel, previous) {
      return Unchanged, NothingToLose;
    }
    subscription.supportExpiration := Some(now + SUPPORT_GRACE);
    subscription.expirationNotified := true;
    return GraceOpened, MembershipLostGraceOpened;
  }

  method AdvanceGraceFlow(subscription: SupporterSubscription, user: User, activeAmounts: map<string, int>, now: int)
    returns (outcome: DueOutcome)
    modifies user`supporterLevel, subscription`supportExpiration, subscription`expirationNotified
    ensures outcome == DueStep(old(View(user, subscription)), subscription.patreonUserId in activeAmounts)
    ensures View(user, subscription)
        == Advanced(old(View(user, subscription)), subscription.patreonUserId in activeAmounts, now)
    ensures outcome == Extended <==> subscription.patreonUserId in activeAmounts
    ensures outcome == SupportLost <==>
              subscription.patreonUserId !in activeAmounts && old(subscription.expirationNotified)
    ensures user.supporterLevel == if outcome == SupportLost then user.grantedSupporterLevel
        else old(user.supporterLevel)
    ensures subscription.supportExpiration == if outcome == SupportLost then None else Some(now + WEEK)
    ensures subscription.expirationNotified <==> outcome != Extended
  {
    if subscription.patreonUserId in activeAmounts {
      subscription.expirationNotified := false;
      subscription.supportExpiration := Some(now + SUPPORT_GRACE);
      return Extended;
    }
    if !subscription.expirationNotified {
      subscription.expirationNotified := true;
      subscription.supportExpiration := Some(now + SUPPORT_GRACE);
      return GraceStarted;
    }
    user.supporterLevel := user.grantedSupporterLevel;
    subscription.supportExpiration := None;
    return SupportLost;
  }

  datatype LevelSyncOutcome = SyncUnchanged | SyncUpgraded | SyncDowngraded

  method ApplyTargetLevel(subscription: SupporterSubscription, user: User, amount: int, config: PatreonConfig, now: int)
    returns (outcome: LevelSyncOutcome)
    modifies user`supporterLevel, subscription`supportExpiration, subscription`expirationNotified
    ensures View(user, subscription) == Confirmed(old(View(user, subscription)), LevelForAmount(amount, config), now)
    ensures outcome == SyncUpgraded <==> Above(user.supporterLevel, old(user.supporterLevel))
    ensures outcome == SyncDowngraded <==> Above(old(user.supporterLevel), user.supporterLevel)
    ensures IsHigherOf(user.supporterLevel, LevelForAmount(amount, config), user.grantedSupporterLevel)
    ensures outcome == SyncUnchanged ==> View(user, subscription) == old(View(user, subscription))
    ensures outcome != SyncUnchanged ==>
              subscription.supportExpiration == Some(now + WEEK) && !subscription.expirationNotified
  {
    var previous := user.supporterLevel;
    var target := Highest(LevelForAmount(amount, config), user.grantedSupporterLevel);
    if previous == target {
      return SyncUnchanged;
    }
    user.supporterLevel := target;
    subscription.supportExpiration := Some(now + SUPPORT_GRACE);
    subscription.expirationNotified := false;
    outcome := if !Meets(previous, target) then SyncUpgraded else SyncDowngraded;
  }

  datatype LinkOutcome = PendingDeletion | AlreadyLinkedElsewhere | LinkedSupporter | LinkedNoPatron

  // `claimedElsewhere` covers both the check before the write and the uniqueness race lost by it.
  method LinkPatreonAccount(user: User, existing: SupporterSubscription?, patreonUserId: string,
      granted: SupporterLevel, claimedElsewhere: bool, now: int)
    returns (outcome: LinkOutcome, subscription: SupporterSubscription?)
    modifies user`supporterLevel, existing
    ensures var refused := user.deletionRequested || claimedElsewhere;
            var step := Step(now, Link(patreonUserId, granted, refused));
            View(user, subscription) == Next(old(View(user, existing)), step, PatreonConfig(0, 0))
    ensures subscription == existing || (existing == null && fresh(subscription))
    ensures outcome == PendingDeletion <==> user.deletionRequested
    ensures outcome == LinkedSupporter ==> IsSupporter(granted)
    ensures outcome == LinkedNoPatron ==> !IsSupporter(granted)
    ensures outcome in {PendingDeletion, AlreadyLinkedElsewhere} <==> user.deletionRequested || claimedElsewhere
    ensures outcome in {LinkedSupporter, LinkedNoPatron} ==>
              && IsHigherOf(user.supporterLevel, granted, user.grantedSupporterLevel)
              && subscription != null && subscription.patreonUserId == patreonUserId
              && subscription.supportExpiration == if granted == NoLevel then None else Some(now + WEEK)
  {
    subscription := existing;
    if user.deletionRequested {
      return PendingDeletion, existing;
    }
    if claimedElsewhere {
      return AlreadyLinkedElsewhere, existing;
    }
    if subscription == null {
      subscription := new SupporterSubscription(patreonUserId);
    } else {
      subscription.patreonUserId := patreonUserId;
    }
    user.supporterLevel := Highest(granted, user.grantedSupporterLevel);
    if IsSupporter(granted) {
      subscription.supportExpiration := Some(now + SUPPORT_GRACE);
      outcome := LinkedSupporter;
    } else {
      subscription.supportExpiration := None;
      outcome := LinkedNoPatron;
    }
  }

  method ApplyGrant(target: User, subscription: SupporterSubscription?, level: SupporterLevel)
    modifies target`supporterLevel, target`grantedSupporterLevel
    ensures View(target, subscription) == Granted(old(View(target, subscription)), level)
    ensures target.grantedSupporterLevel == level
    ensures if subscription == null then target.supporterLevel == level
            else IsHigherOf(target.supporterLevel, old(target.supporterLevel), level)
  {
    target.grantedSupporterLevel := level;
    target.supporterLevel := if subscription != null then Highest(target.supporterLevel, level) else level;
  }
}
