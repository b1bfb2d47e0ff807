// A meeting's attendees and its waiting list (libs/data/mitup_bot/models/meetups.py,
// libs/core/mitup_bot/limits.py): who is confirmed, who waits, and who moves up when a place frees.
module Roster {
  import opened Wrappers
  import opened Supporter

  // The fields of one `JoinedUsers` row.
  datatype Link = Link(createdTime: int, id: int, userId: int, invitedBy: Option<int>, waiting: bool, notified: bool)

  // Longest waiting first; the id breaks ties of the timestamp.
  predicate Precedes(a: Link, b: Link) {
    a.createdTime < b.createdTime || (a.createdTime == b.createdTime && a.id < b.id)
  }

  // Two links are told apart by their place in the queue.
  ghost predicate Ordered(links: seq<Link>) {
    forall i, j | 0 <= i < j < |links| :: Precedes(links[i], links[j]) || Precedes(links[j], links[i])
  }

  function NParticipants(links: seq<Link>): nat {
    if links == [] then 0 else NParticipants(links[..|links| - 1]) + if links[|links| - 1].waiting then 0 else 1
  }

  function NWaiting(links: seq<Link>): nat {
    if links == [] then 0 else NWaiting(links[..|links| - 1]) + if links[|links| - 1].waiting then 1 else 0
  }

  function Places(links: seq<Link>, waiting: bool): set<int> {
    set i | 0 <= i < |links| && links[i].waiting == waiting
  }

  lemma PlacesGrow(links: seq<Link>, last: Link, waiting: bool)
    ensures |Places(links + [last], waiting)| == |Places(links, waiting)| + if last.waiting == waiting then 1 else 0
  {
    var n, all := |links|, links + [last];
    var before, after := Places(links, waiting), Places(all, waiting);
    forall i | 0 <= i < n
      ensures i in after <==> i in before
    {
      assert all[i] == links[i];
    }
    assert all[n] == last;
    assert after == if last.waiting == waiting then before + {n} else before;
  }

  // The counts are those of the rows.
  lemma {:induction false} CountsAreOfRows(links: seq<Link>)
    ensures NParticipants(links) == |Places(links, false)|
    ensures NWaiting(links) == |Places(links, true)|
  {
    if links != [] {
      var front, last := links[..|links| - 1], links[|links| - 1];
      CountsAreOfRows(front);
      PlacesGrow(front, last, false);
      PlacesGrow(front, last, true);
      assert links == front + [last];
    }
  }

  // How many wait in front of `l`.
  function Ahead(links: seq<Link>, l: Link): nat {
    if links == [] then 0
    else
      var last := links[|links| - 1];
      Ahead(links[..|links| - 1], l) + if last.waiting && Precedes(last, l) then 1 else 0
  }

  // ---- Capacity ----

  // A meeting as its capacity sees it.
  datatype Meeting = Meeting(
    links: seq<Link>, maxMembers: Option<int>, waitingList: bool, ownerLevel: SupporterLevel, freeCapacity: int)

  function EffectiveParticipantCapacity(ownerLevel: SupporterLevel, freeCapacity: int,
      maxMembers: Option<int>): Option<int> {
    match ParticipantCapacity(ownerLevel, freeCapacity)
    case None => maxMembers
    case Some(cap) => if maxMembers.None? || maxMembers.value > cap then Some(cap) else maxMembers
  }

  function Cap(m: Meeting): Option<int> {
    EffectiveParticipantCapacity(m.ownerLevel, m.freeCapacity, m.maxMembers)
  }

  predicate Full(m: Meeting) {
    Cap(m).Some? && NParticipants(m.links) >= Cap(m).value
  }

  // The capacity in force is the least of the limits that apply, and absent only when none does.
  lemma CapacityIsTheTightestLimit(m: Meeting, n: int)
    ensures (Cap(m).None? || n <= Cap(m).value)
       <==> (m.maxMembers.None? || n <= m.maxMembers.value) && (!Meets(m.ownerLevel, Host2) ==> n <= m.freeCapacity)
  {
  }

  function FreePlaces(m: Meeting): nat {
    var waiting := NWaiting(m.links);
    if Cap(m).None? then waiting
    else
      var free := Cap(m).value - NParticipants(m.links);
      if free < 0 then 0 else if waiting < free then waiting else free
  }

  // ---- The operations ----

  // The first `n` of the waiting list are confirmed; nobody else changes.
  function PromoteFirst(links: seq<Link>, n: nat): (after: seq<Link>)
    ensures |after| == |links|
    ensures forall i | 0 <= i < |links| ::
              var moves := links[i].waiting && Ahead(links, links[i]) < n;
              after[i] == if moves then links[i].(waiting := false) else links[i]
  {
    seq(|links|, i requires 0 <= i < |links| =>
      if links[i].waiting && Ahead(links, links[i]) < n then links[i].(waiting := false) else links[i])
  }

  function Promoted(m: Meeting): Meeting {
    m.(links := PromoteFirst(m.links, FreePlaces(m)))
  }

  // What two links agree on when the model's equality calls them equal.
  predicate SameLink(a: Link, b: Link) {
    a.userId == b.userId && a.invitedBy == b.invitedBy && a.waiting == b.waiting && a.notified == b.notified
  }

  // Where the first link equal to `l` is, or the length when there is none.
  function IndexOf(links: seq<Link>, l: Link): (k: nat)
    ensures k <= |links| && (k < |links| ==> SameLink(links[k], l))
    ensures forall i | 0 <= i < k :: !SameLink(links[i], l)
  {
    if links == [] then 0
    else
      var n := |links| - 1;
      var k := IndexOf(links[..n], l);
      if k < n || SameLink(links[n], l) then k else n + 1
  }

  function RemoveFirst(links: seq<Link>, l: Link): seq<Link> {
    var k := IndexOf(links, l);
    if k < |links| then links[..k] + links[k + 1..] else links
  }

  function Joined(m: Meeting, link: Link): Meeting {
    if IndexOf(m.links, link) < |m.links| then m else m.(links := m.links + [link])
  }

  // ---- Counting the queue ----

  lemma {:induction false} CountsAddUp(links: seq<Link>)
    ensures NParticipants(links) + NWaiting(links) == |links|
  {
    if links != [] {
      CountsAddUp(links[..|links| - 1]);
    }
  }

  lemma {:induction false} AheadIsMonotone(links: seq<Link>, a: Link, b: Link)
    requires !Precedes(b, a)
    ensures Ahead(links, a) <= Ahead(links, b)
  {
    if links != [] {
      AheadIsMonotone(links[..|links| - 1], a, b);
    }
  }

  // Whoever waits in front of `b` has fewer in front of them.
  lemma {:induction false} AheadIsStrict(links: seq<Link>, i: nat, b: Link)
    requires i < |links| && links[i].waiting && Precedes(links[i], b)
    ensures Ahead(links, links[i]) < Ahead(links, b)
    decreases |links|
  {
    var n := |links| - 1;
    if i == n {
      AheadIsMonotone(links[..n], links[i], b);
    } else {
      AheadIsStrict(links[..n], i, b);
    }
  }

  lemma {:induction false} AheadIsBounded(links: seq<Link>, l: Link)
    ensures Ahead(links, l) <= NWaiting(links)
  {
    if links != [] {
      AheadIsBounded(links[..|links| - 1], l);
    }
  }

  // The waiting list in promotion order: each place in the queue is held by exactly one link.
  lemma {:induction false} SomebodyIsAt(links: seq<Link>, r: nat) returns (i: nat)
    requires Ordered(links) && r < NWaiting(links)
    ensures i < |links| && links[i].waiting && Ahead(links, links[i]) == r
  {
    var n := |links| - 1;
    var last := links[n];
    var front := links[..n];
    if !last.waiting {
      i := SomebodyIsAt(front, r);
    } else if r == Ahead(front, last) {
      i := n;
    } else {
      // Behind the newcomer every rank is one higher.
      AheadIsBounded(front, last);
      i := SomebodyIsAt(front, if r < Ahead(front, last) then r else r - 1);
      var l := links[i];
      assert l == front[i];
      if Precedes(l, last) {
        AheadIsStrict(front, i, last);
      } else {
        AheadIsMonotone(front, last, l);
      }
    }
  }

  // Confirming one place more confirms exactly one link more.
  lemma PromotingOneMore(links: seq<Link>, n: nat) returns (i: nat)
    requires Ordered(links) && n < NWaiting(links)
    ensures i < |links| && links[i].waiting && PromoteFirst(links, n)[i] == links[i]
    ensures PromoteFirst(links, n + 1) == PromoteFirst(links, n)[i := links[i].(waiting := false)]
  {
    i := SomebodyIsAt(links, n);
    forall j | 0 <= j < |links| && j != i && links[j].waiting
      ensures Ahead(links, links[j]) != n
    {
      if Precedes(links[j], links[i]) {
        AheadIsStrict(links, j, links[i]);
      } else {
        assert Precedes(links[i], links[j]);
        AheadIsStrict(links, i, links[j]);
      }
    }
  }

  // Promotion moves up as many as it says, and everyone it leaves waiting keeps waiting.
  lemma PromotionCounts(links: seq<Link>, n: nat)
    requires Ordered(links) && n <= NWaiting(links)
    ensures NParticipants(PromoteFirst(links, n)) == NParticipants(links) + n
    ensures NWaiting(PromoteFirst(links, n)) == NWaiting(links) - n
  {
    PromotionConfirms(links, n);
    CountsAddUp(links);
    CountsAddUp(PromoteFirst(links, n));
  }

  lemma {:induction false} PromotionConfirms(links: seq<Link>, n: nat)
    requires Ordered(links) && n <= NWaiting(links)
    ensures NParticipants(PromoteFirst(links, n)) == NParticipants(links) + n
  {
    if n == 0 {
      assert PromoteFirst(links, 0) == links;
    } else {
      PromotionConfirms(links, n - 1);
      var i := PromotingOneMore(links, n - 1);
      FlippingOneCounts(PromoteFirst(links, n - 1), i);
    }
  }

  lemma {:induction false} FlippingOneCounts(links: seq<Link>, i: nat)
    requires i < |links| && links[i].waiting
    ensures NParticipants(links[i := links[i].(waiting := false)]) == NParticipants(links) + 1
    decreases |links|
  {
    var n := |links| - 1;
    var after := links[i := links[i].(waiting := false)];
    if i < n {
      FlippingOneCounts(links[..n], i);
      assert after[..n] == links[..n][i := links[i].(waiting := false)];
    } else {
      assert after[..n] == links[..n];
    }
  }

  // Promotion ends with nobody waiting or no place free, and never goes above the capacity.
  lemma PromotionFillsUp(m: Meeting)
    requires Ordered(m.links)
    ensures NWaiting(Promoted(m).links) == 0 || Full(Promoted(m))
    ensures Cap(m).Some? ==> NParticipants(Promoted(m).links) <= Cap(m).value
                             || NParticipants(Promoted(m).links) == NParticipants(m.links)
    ensures Full(m) ==> Promoted(m) == m
  {
    PromotionCounts(m.links, FreePlaces(m));
    if Full(m) {
      assert PromoteFirst(m.links, 0) == m.links;
    }
  }

  // ---- Runs ----

  datatype Event =
    | Join(link: Link)
    | Leave(link: Link)
    | SetParticipantLimit(maxMembers: Option<int>)
    | SetWaitingList(on: bool)
    | OwnerTierChanges(level: SupporterLevel)

  // A new row carries a later key than every row before it.
  ghost predicate Possible(m: Meeting, e: Event) {
    e.Join? ==> forall i | 0 <= i < |m.links| :: Precedes(m.links[i], e.link)
  }

  function AddParticipant(m: Meeting, link: Link): Meeting {
    if Full(m) then
      if m.waitingList then Joined(m, link.(waiting := true, notified := false)) else m
    else Joined(m, link.(waiting := false, notified := false))
  }

  function Next(m: Meeting, e: Event): Meeting {
    match e
    case Join(link) => AddParticipant(m, link)
    case Leave(link) =>
      if IndexOf(m.links, link) < |m.links| then Promoted(m.(links := RemoveFirst(m.links, link))) else m
    case SetParticipantLimit(limit) => Promoted(m.(maxMembers := limit))
    case SetWaitingList(on) => m.(waitingList := on)
    case OwnerTierChanges(level) => m.(ownerLevel := level)
  }

  // Someone waits only while there is no place, and everyone confirmed came before everyone waiting.
  ghost predicate Fair(m: Meeting) {
    && Ordered(m.links)
    && (NWaiting(m.links) > 0 ==> Full(m))
    && ConfirmedFirst(m.links)
  }

  ghost predicate ConfirmedFirst(links: seq<Link>) {
    forall c, w | 0 <= c < |links| && 0 <= w < |links| && !links[c].waiting && links[w].waiting ::
      Precedes(links[c], links[w])
  }

  // An owner's tier changes without anybody being moved up. That leaves somebody behind a free place when
  // the new tier is uncapped and the meeting's own limit is absent or not reached.
  predicate LeavesNobodyBehind(m: Meeting, e: Event) {
    e.OwnerTierChanges? ==>
      !(&& NWaiting(m.links) > 0 && Meets(e.level, Host2)
        && (m.maxMembers.None? || m.maxMembers.value > NParticipants(m.links)))
  }

  // Removing keeps the others in place.
  lemma RemovedAt(links: seq<Link>, l: Link, i: nat) returns (j: nat)
    requires i < |RemoveFirst(links, l)|
    ensures i <= j < |links| && RemoveFirst(links, l)[i] == links[j] && j == if i < IndexOf(links, l) then i else i + 1
  {
    j := if i < IndexOf(links, l) then i else i + 1;
  }

  lemma RemovingKeepsOrder(links: seq<Link>, l: Link)
    ensures Ordered(links) ==> Ordered(RemoveFirst(links, l))
    ensures ConfirmedFirst(links) ==> ConfirmedFirst(RemoveFirst(links, l))
  {
    var after := RemoveFirst(links, l);
    forall i, j | 0 <= i < j < |after| && Ordered(links)
      ensures Precedes(after[i], after[j]) || Precedes(after[j], after[i])
    {
      var i' := RemovedAt(links, l, i);
      var j' := RemovedAt(links, l, j);
    }
    forall c, w | 0 <= c < |after| && 0 <= w < |after| && ConfirmedFirst(links) && !after[c].waiting && after[w].waiting
      ensures Precedes(after[c], after[w])
    {
      var c' := RemovedAt(links, l, c);
      var w' := RemovedAt(links, l, w);
    }
  }

  lemma RemovingConfirmsNobody(links: seq<Link>, l: Link)
    ensures NParticipants(RemoveFirst(links, l)) <= NParticipants(links)
  {
    if IndexOf(links, l) < |links| {
      RemovingOneCounts(links, IndexOf(links, l));
    }
  }

  lemma {:induction false} RemovingOneCounts(links: seq<Link>, k: nat)
    requires k < |links|
    ensures NParticipants(links[..k] + links[k + 1..]) <= NParticipants(links)
    decreases |links|
  {
    var n := |links| - 1;
    var front, after := links[..n], links[..k] + links[k + 1..];
    if k == n {
      assert after == front;
    } else {
      RemovingOneCounts(front, k);
      var frontAfter := front[..k] + front[k + 1..];
      assert |after| == n && after[..n - 1] == frontAfter && after[n - 1] == links[n];
    }
  }

  lemma PromotionKeepsFairness(m: Meeting)
    requires Ordered(m.links) && ConfirmedFirst(m.links)
    ensures Fair(Promoted(m))
  {
    PromotionFillsUp(m);
    var n := FreePlaces(m);
    var after := Promoted(m).links;
    forall i, j | 0 <= i < |after| && 0 <= j < |after| && !after[i].waiting && after[j].waiting
      ensures Precedes(after[i], after[j])
    {
      var c, w := m.links[i], m.links[j];
      if c.waiting && !Precedes(c, w) {
        AheadIsMonotone(m.links, w, c);
      }
    }
  }

  // Every operation keeps the order fair; a tier change does unless it lifts the cap over a waiting list
  // under a loose limit.
  lemma StepKeepsFairIff(m: Meeting, e: Event)
    requires Fair(m) && Possible(m, e)
    ensures Fair(Next(m, e)) <==> LeavesNobodyBehind(m, e)
  {
    match e {
      case Join(link) =>
        var l := link.(waiting := Full(m), notified := false);
        if IndexOf(m.links, l) < |m.links| || (Full(m) && !m.waitingList) {
          assert Next(m, e) == m;
        } else {
          JoiningKeepsFair(m, l);
        }
      case Leave(link) =>
        RemovingKeepsOrder(m.links, link);
        PromotionKeepsFairness(m.(links := RemoveFirst(m.links, link)));
      case SetParticipantLimit(limit) =>
        PromotionKeepsFairness(m.(maxMembers := limit));
      case SetWaitingList(_) =>
      case OwnerTierChanges(_) =>
    }
  }

  lemma JoiningKeepsFair(m: Meeting, l: Link)
    requires Fair(m) && l.waiting == Full(m) && forall i | 0 <= i < |m.links| :: Precedes(m.links[i], l)
    ensures Fair(m.(links := m.links + [l]))
  {
    var after := m.links + [l];
    assert after[..|m.links|] == m.links;
    AtLeastOneWaits(m.links);
    assert Ordered(after);
    assert ConfirmedFirst(after);
  }

  lemma {:induction false} AtLeastOneWaits(links: seq<Link>)
    ensures NWaiting(links) > 0 <==> exists i | 0 <= i < |links| :: links[i].waiting
  {
    if links != [] {
      AtLeastOneWaits(links[..|links| - 1]);
    }
  }

  function Run(m: Meeting, es: seq<Event>): Meeting {
    if es == [] then m else Next(Run(m, es[..|es| - 1]), es[|es| - 1])
  }

  // Joins carry fresh keys, and a tier change leaves nobody behind a free place.
  ghost predicate GuardedRun(m: Meeting, es: seq<Event>) {
    es != [] ==>
      var n := |es| - 1;
      var was := Run(m, es[..n]);
      GuardedRun(m, es[..n]) && Possible(was, es[n]) && LeavesNobodyBehind(was, es[n])
  }

  lemma {:induction false} RunKeepsFair(m: Meeting, es: seq<Event>)
    requires Fair(m) && GuardedRun(m, es)
    ensures Fair(Run(m, es))
  {
    if es != [] {
      RunKeepsFair(m, es[..|es| - 1]);
      StepKeepsFairIff(Run(m, es[..|es| - 1]), es[|es| - 1]);
    }
  }

  // Nobody is confirmed beyond the capacity in force.
  lemma ConfirmedOnlyWithinCapacity(m: Meeting, e: Event)
    requires Ordered(m.links)
    ensures var after := Next(m, e);
            (NParticipants(after.links) > NParticipants(m.links) && Cap(after).Some? ==>
               NParticipants(after.links) <= Cap(after).value)
  {
    match e {
      case Join(link) =>
        assert (m.links + [link.(waiting := Full(m), notified := false)])[..|m.links|] == m.links;
      case Leave(link) =>
        RemovingKeepsOrder(m.links, link);
        RemovingConfirmsNobody(m.links, link);
        PromotionFillsUp(m.(links := RemoveFirst(m.links, link)));
      case SetParticipantLimit(limit) =>
        PromotionFillsUp(m.(maxMembers := limit));
      case SetWaitingList(_) =>
      case OwnerTierChanges(_) =>
    }
  }

  // ---- What each operation does ----

  // Nobody of this user is on the meeting yet.
  predicate IsNew(m: Meeting, userId: int) {
    forall i | 0 <= i < |m.links| :: m.links[i].userId != userId
  }

  // Somebody new is put at the end of the list, waiting exactly when the capacity is used up; without a
  // waiting list a full meeting stays as it is.
  lemma JoinAddsTheNewcomer(m: Meeting, link: Link)
    requires IsNew(m, link.userId)
    ensures var full := Cap(m).Some? && NParticipants(m.links) >= Cap(m).value;
            var row := Link(link.createdTime, link.id, link.userId, link.invitedBy, full, false);
            Next(m, Join(link)) == if full && !m.waitingList then m else m.(links := m.links + [row])
  {
  }

  // The first equal link goes; the others stay in their order and change at most from waiting to confirmed.
  lemma LeaveTakesOneOff(m: Meeting, link: Link, k: nat)
    requires k < |m.links| && SameLink(m.links[k], link) && forall i | 0 <= i < k :: !SameLink(m.links[i], link)
    ensures var after := Next(m, Leave(link));
            && after.(links := m.links) == m && |after.links| == |m.links| - 1
            && forall i | 0 <= i < |after.links| ::
                 var was := m.links[if i < k then i else i + 1];
                 after.links[i] == was || (was.waiting && after.links[i] == was.(waiting := false))
  {
    assert IndexOf(m.links, link) == k;
  }

  // The settings are what they were set to, and only a limit moves anybody.
  lemma SettingsAreSet(m: Meeting, limit: Option<int>, on: bool, level: SupporterLevel)
    ensures var after := Next(m, SetParticipantLimit(limit));
            && after.(links := m.links) == m.(maxMembers := limit) && |after.links| == |m.links|
            && forall i | 0 <= i < |m.links| ::
                 || after.links[i] == m.links[i]
                 || (m.links[i].waiting && after.links[i] == m.links[i].(waiting := false))
    ensures Next(m, SetWaitingList(on)) == m.(waitingList := on)
    ensures Next(m, OwnerTierChanges(level)) == m.(ownerLevel := level)
  {
  }

  // ---- Nobody in the queue is passed by somebody behind ----

  predicate SameRow(a: Link, b: Link) {
    a.createdTime == b.createdTime && a.id == b.id
  }

  ghost predicate NotPassed(links: seq<Link>, a: Link, b: Link) {
    forall i, j | 0 <= i < |links| && 0 <= j < |links| ::
      SameRow(links[i], a) && SameRow(links[j], b) && links[i].waiting ==> links[j].waiting
  }

  lemma PromotionDoesNotPass(links: seq<Link>, n: nat, a: Link, b: Link)
    requires NotPassed(links, a, b) && Precedes(a, b)
    ensures NotPassed(PromoteFirst(links, n), a, b)
  {
    var after := PromoteFirst(links, n);
    forall i, j | 0 <= i < |links| && 0 <= j < |links| && SameRow(after[i], a) && SameRow(after[j], b)
        && after[i].waiting
      ensures after[j].waiting
    {
      assert links[i].waiting && links[j].waiting;
      AheadIsMonotone(links, links[i], links[j]);
    }
  }

  lemma RemovingDoesNotPass(links: seq<Link>, l: Link, a: Link, b: Link)
    requires NotPassed(links, a, b)
    ensures NotPassed(RemoveFirst(links, l), a, b)
  {
    var after := RemoveFirst(links, l);
    forall i, j | 0 <= i < |after| && 0 <= j < |after| && SameRow(after[i], a) && SameRow(after[j], b)
        && after[i].waiting
      ensures after[j].waiting
    {
      var i' := RemovedAt(links, l, i);
      var j' := RemovedAt(links, l, j);
    }
  }

  // Of two people in the queue the later one never moves up before the earlier one, in any run at all:
  // owners may change tier, limits may shrink and grow, the waiting list may be switched off.
  lemma {:induction false} NobodyIsPassed(m: Meeting, es: seq<Event>, a: Link, b: Link)
    requires NotPassed(m.links, a, b)
    requires a.createdTime < b.createdTime || (a.createdTime == b.createdTime && a.id < b.id)
    requires forall i | 0 <= i < |es| :: es[i].Join? ==> Precedes(b, es[i].link)
    ensures NotPassed(Run(m, es).links, a, b)
  {
    if es != [] {
      var n := |es| - 1;
      NobodyIsPassed(m, es[..n], a, b);
      StepDoesNotPass(Run(m, es[..n]), es[n], a, b);
    }
  }

  lemma StepDoesNotPass(m: Meeting, e: Event, a: Link, b: Link)
    requires NotPassed(m.links, a, b) && Precedes(a, b) && (e.Join? ==> Precedes(b, e.link))
    ensures NotPassed(Next(m, e).links, a, b)
  {
    match e {
      case Join(link) =>
      case Leave(link) =>
        var left := m.(links := RemoveFirst(m.links, link));
        RemovingDoesNotPass(m.links, link, a, b);
        PromotionDoesNotPass(left.links, FreePlaces(left), a, b);
      case SetParticipantLimit(limit) =>
        PromotionDoesNotPass(m.links, FreePlaces(m.(maxMembers := limit)), a, b);
      case SetWaitingList(_) =>
      case OwnerTierChanges(_) =>
    }
  }

  // A newcomer can pass the whole queue: an owner who buys the tier without a cap frees places, but moves
  // nobody into them, and the next to join is confirmed at once.
  lemma NewcomerPassesTheQueue(m: Meeting, newcomer: Link)
    requires Fair(m) && NWaiting(m.links) > 0 && m.maxMembers.None?
    requires Possible(m, Join(newcomer)) && forall i | 0 <= i < |m.links| :: m.links[i].userId != newcomer.userId
    ensures var upgraded := Next(m, OwnerTierChanges(Host2));
            var after := Next(upgraded, Join(newcomer));
            && !LeavesNobodyBehind(m, OwnerTierChanges(Host2))
            && NWaiting(after.links) == NWaiting(m.links)
            && !after.links[|m.links|].waiting && SameRow(after.links[|m.links|], newcomer)
            && !ConfirmedFirst(after.links)
  {
    var joined := newcomer.(waiting := false, notified := false);
    AtLeastOneWaits(m.links);
    var w :| 0 <= w < |m.links| && m.links[w].waiting;
    PassedBy(m.links, w, joined);
    assert Cap(Next(m, OwnerTierChanges(Host2))) == None;
  }

  lemma PassedBy(links: seq<Link>, w: nat, joined: Link)
    requires w < |links| && links[w].waiting && !joined.waiting && Precedes(links[w], joined)
    ensures var after := links + [joined];
            NWaiting(after) == NWaiting(links) && after[|links|] == joined && !ConfirmedFirst(after)
  {
    var after := links + [joined];
    assert after[..|links|] == links;
    assert after[w] == links[w];
  }

  // ---- The objects ----

  class JoinedUsers {
    const createdTime: int
    const id: int
    const userId: int
    const invitedBy: Option<int>
    var isWaitingList: bool
    var notificationSent: bool

    constructor (createdTime: int, id: int, userId: int, invitedBy: Option<int>, isWaitingList: bool)
      ensures Row() == Link(createdTime, id, userId, invitedBy, isWaitingList, false)
    {
      this.createdTime, this.id, this.userId, this.invitedBy := createdTime, id, userId, invitedBy;
      this.isWaitingList, notificationSent := isWaitingList, false;
    }

    function Row(): Link
      reads this
    {
      Link(createdTime, id, userId, invitedBy, isWaitingList, notificationSent)
    }
  }

  function Rows(links: seq<JoinedUsers>): (rows: seq<Link>)
    reads links
    ensures |rows| == |links| && forall i | 0 <= i < |links| :: rows[i] == links[i].Row()
  {
    seq(|links|, i requires 0 <= i < |links| reads links => links[i].Row())
  }

  lemma SameRank(links: seq<Link>, i: nat, j: nat)
    requires Ordered(links) && i < |links| && j < |links| && links[i].waiting && links[j].waiting
    requires Ahead(links, links[i]) == Ahead(links, links[j])
    ensures i == j
  {
    if i != j {
      if Precedes(links[i], links[j]) {
        AheadIsStrict(links, i, links[j]);
      } else {
        AheadIsStrict(links, j, links[i]);
      }
    }
  }

  // `queue` lists the waiting links, each at its place.
  ghost predicate InQueueOrder(queue: seq<Link>, links: seq<Link>) {
    |queue| == NWaiting(links) && AtPlaces(queue, links)
  }

  ghost predicate AtPlaces(queue: seq<Link>, links: seq<Link>) {
    forall i | 0 <= i < |queue| :: queue[i].waiting && Ahead(links, queue[i]) == i && queue[i] in links
  }

  lemma QueueIsSorted(queue: seq<Link>, links: seq<Link>)
    requires AtPlaces(queue, links) && Ordered(links)
    ensures forall i, j | 0 <= i < j < |queue| :: Precedes(queue[i], queue[j])
  {
    forall i, j | 0 <= i < j < |queue|
      ensures Precedes(queue[i], queue[j])
    {
      if !Precedes(queue[i], queue[j]) {
        AheadIsMonotone(links, queue[j], queue[i]);
      }
    }
  }

  lemma {:induction false} WaitingIsAhead(links: seq<Link>, k: nat)
    requires k < |links| && links[k].waiting
    ensures Ahead(links, links[k]) < NWaiting(links)
    decreases |links|
  {
    var n := |links| - 1;
    if k < n {
      WaitingIsAhead(links[..n], k);
    } else {
      AheadIsBounded(links[..n], links[n]);
    }
  }

  lemma HeadIsAtPlaces(queue: seq<Link>, links: seq<Link>, n: nat)
    requires AtPlaces(queue, links) && n <= |queue|
    ensures AtPlaces(queue[..n], links)
  {
    assert forall i | 0 <= i < n :: queue[..n][i] == queue[i];
  }

  lemma InsertingKeepsQueueOrder(queue: seq<Link>, links: seq<Link>, l: Link, p: nat)
    requires InQueueOrder(queue, links) && Ordered(links + [l]) && l.waiting && p <= |queue|
    requires p > 0 ==> Precedes(queue[p - 1], l)
    requires p < |queue| ==> !Precedes(queue[p], l)
    ensures InQueueOrder(queue[..p] + [l] + queue[p..], links + [l])
  {
    var all := links + [l];
    assert all[..|links|] == links;
    if p > 0 {
      var i :| 0 <= i < |links| && links[i] == queue[p - 1];
      AheadIsStrict(links, i, l);
    }
    if p < |queue| {
      AheadIsMonotone(links, l, queue[p]);
    }
    AheadIsBounded(links, l);
    assert Ahead(links, l) == p;
    forall i | 0 <= i < |queue|
      ensures Ahead(all, queue[i]) == if i < p then i else i + 1
    {
      var k :| 0 <= k < |links| && links[k] == queue[i];
      assert all[k] == queue[i] && all[|links|] == l;
      if i < p && Precedes(l, queue[i]) {
        AheadIsMonotone(links, l, queue[i]);
      }
      if i >= p && Precedes(queue[i], l) {
        AheadIsStrict(links, k, l);
      }
    }
  }

  lemma SkippingKeepsQueueOrder(queue: seq<Link>, links: seq<Link>, l: Link)
    requires InQueueOrder(queue, links) && !l.waiting
    ensures InQueueOrder(queue, links + [l])
  {
    assert (links + [l])[..|links|] == links;
  }

  function Without<T>(s: seq<T>, k: nat): (rest: seq<T>)
    requires k < |s|
    ensures |rest| == |s| - 1 && forall i | 0 <= i < |rest| :: rest[i] == s[if i < k then i else i + 1]
    ensures forall x <- rest :: x in s
  {
    s[..k] + s[k + 1..]
  }

  class Meetup {
    const freeParticipantCapacity: int
    var joinedLinks: seq<JoinedUsers>
    var maxMembers: Option<int>
    var waitingList: bool
    var ownerLevel: SupporterLevel

    function View(): Meeting
      reads this, joinedLinks
    {
      Meeting(Rows(joinedLinks), maxMembers, waitingList, ownerLevel, freeParticipantCapacity)
    }

    ghost predicate Valid()
      reads this, joinedLinks
    {
      Ordered(Rows(joinedLinks))
    }

    // The links that moved up are confirmed rows of the meeting, in the order of their places in the queue.
    ghost predicate MovedUp(promoted: seq<JoinedUsers>, places: seq<Link>)
      reads this, joinedLinks
    {
      && |promoted| == |places|
      && forall i | 0 <= i < |promoted| ::
           promoted[i] in joinedLinks && promoted[i].Row() == places[i].(waiting := false)
    }

    // Attendees and waiting links, in one pass each.
    method Counts() returns (participants: nat, waiting: nat)
      ensures participants == NParticipants(Rows(joinedLinks)) && waiting == NWaiting(Rows(joinedLinks))
    {
      participants, waiting := 0, 0;
      ghost var rows := Rows(joinedLinks);
      var i := 0;
      while i < |joinedLinks|
        invariant 0 <= i <= |joinedLinks|
        invariant participants == NParticipants(rows[..i]) && waiting == NWaiting(rows[..i])
      {
        assert rows[..i + 1][..i] == rows[..i];
        if joinedLinks[i].isWaitingList {
          waiting := waiting + 1;
        } else {
          participants := participants + 1;
        }
        i := i + 1;
      }
      assert rows[..i] == rows;
    }

    // One step of the sort: `link` goes behind everyone who waited longer.
    method Enqueued(queue: seq<JoinedUsers>, link: JoinedUsers, ghost links: seq<Link>)
        returns (after: seq<JoinedUsers>)
      requires InQueueOrder(Rows(queue), links) && Ordered(links + [link.Row()]) && link.Row().waiting
      ensures InQueueOrder(Rows(after), links + [link.Row()])
      ensures forall l <- after :: l == link || l in queue
    {
      var p := PlaceOf(queue, link);
      ghost var rows, row := Rows(queue), link.Row();
      after := queue[..p] + [link] + queue[p..];
      assert Rows(after) == rows[..p] + [row] + rows[p..];
      InsertingKeepsQueueOrder(rows, links, row, p);
    }

    method PlaceOf(queue: seq<JoinedUsers>, link: JoinedUsers) returns (p: nat)
      ensures p <= |queue|
      ensures p > 0 ==> Precedes(Rows(queue)[p - 1], link.Row())
      ensures p < |queue| ==> !Precedes(Rows(queue)[p], link.Row())
    {
      p := 0;
      while p < |queue| && Precedes(queue[p].Row(), link.Row())
        invariant p <= |queue| && (p > 0 ==> Precedes(queue[p - 1].Row(), link.Row()))
      {
        p := p + 1;
      }
    }

    // The waiting links, longest waiting first.
    method WaitingLinks() returns (queue: seq<JoinedUsers>)
      requires Valid()
      ensures forall l <- queue :: l in joinedLinks && l.isWaitingList
      ensures InQueueOrder(Rows(queue), Rows(joinedLinks))
      ensures forall l <- joinedLinks :: l.isWaitingList ==> l in queue
      ensures forall i, j | 0 <= i < j < |queue| ::
                || queue[i].createdTime < queue[j].createdTime
                || (queue[i].createdTime == queue[j].createdTime && queue[i].id < queue[j].id)
    {
      queue := [];
      ghost var rows := Rows(joinedLinks);
      var i := 0;
      while i < |joinedLinks|
        invariant 0 <= i <= |joinedLinks|
        invariant forall l <- queue :: l in joinedLinks && l.isWaitingList
        invariant InQueueOrder(Rows(queue), rows[..i])
      {
        var link := joinedLinks[i];
        assert rows[..i + 1] == rows[..i] + [link.Row()];
        if link.isWaitingList {
          queue := Enqueued(queue, link, rows[..i]);
        } else {
          SkippingKeepsQueueOrder(Rows(queue), rows[..i], link.Row());
        }
        i := i + 1;
      }
      assert rows[..i] == rows;
      EverybodyIsQueued(queue);
      QueueIsSorted(Rows(queue), rows);
      assert forall i | 0 <= i < |queue| :: Rows(queue)[i] == queue[i].Row();
    }

    lemma EverybodyIsQueued(queue: seq<JoinedUsers>)
      requires Valid() && (forall l <- queue :: l in joinedLinks) && InQueueOrder(Rows(queue), Rows(joinedLinks))
      ensures forall l <- joinedLinks :: l.isWaitingList ==> l in queue
    {
      HeadOfQueue(queue, |queue|);
      forall k | 0 <= k < |joinedLinks| && joinedLinks[k].isWaitingList
        ensures joinedLinks[k] in queue
      {
        WaitingIsAhead(Rows(joinedLinks), k);
        assert !PromoteFirst(Rows(joinedLinks), |queue|)[k].waiting;
        assert queue[..|queue|] == queue;
      }
    }

    // Moves up the longest waiting, as far as there are places, and returns exactly those, in order: `places`
    // are their rows as they stood in the queue.
    method PromoteFromWaitingList() returns (promoted: seq<JoinedUsers>, ghost places: seq<Link>)
      requires Valid()
      modifies set l <- joinedLinks :: l`isWaitingList
      ensures Valid() && View() == Promoted(old(View()))
      ensures joinedLinks == old(joinedLinks)
      ensures |promoted| == FreePlaces(old(View()))
      ensures AtPlaces(places, old(Rows(joinedLinks))) && |places| == |promoted|
      ensures MovedUp(promoted, places)
    {
      var queue := WaitingLinks();
      var toPromote := PlacesToFill();
      promoted, places := Confirm(queue, toPromote);
    }

    // Where the first link equal to `row` is, or the length when there is none.
    method Find(row: Link) returns (k: nat)
      ensures k == IndexOf(Rows(joinedLinks), row)
    {
      k := 0;
      while k < |joinedLinks| && !SameLink(joinedLinks[k].Row(), row)
        invariant k <= |joinedLinks| && forall i | 0 <= i < k :: !SameLink(Rows(joinedLinks)[i], row)
      {
        k := k + 1;
      }
    }

    // Takes the first link equal to `row` off the meeting; `false` stands for the ValueError when there is none.
    method RemoveLink(row: Link) returns (removed: bool)
      requires Valid()
      modifies this`joinedLinks
      ensures Valid() && (forall l <- joinedLinks :: l in old(joinedLinks))
      ensures removed <==> IndexOf(old(Rows(joinedLinks)), row) < |old(joinedLinks)|
      ensures Rows(joinedLinks) == RemoveFirst(old(Rows(joinedLinks)), row)
    {
      var k := Find(row);
      removed := k < |joinedLinks|;
      if removed {
        ghost var rows := Rows(joinedLinks);
        RemovingKeepsOrder(rows, row);
        joinedLinks := Without(joinedLinks, k);
        assert Rows(joinedLinks) == rows[..k] + rows[k + 1..];
      }
    }

    method RemoveParticipant(participant: JoinedUsers)
        returns (promoted: Option<seq<JoinedUsers>>, ghost places: seq<Link>)
      requires Valid()
      modifies this`joinedLinks, set l <- joinedLinks :: l`isWaitingList
      ensures Valid() && View() == Next(old(View()), Leave(old(participant.Row())))
      ensures promoted.Some? <==> IndexOf(old(Rows(joinedLinks)), old(participant.Row())) < |old(joinedLinks)|
      ensures promoted.Some? ==> AtPlaces(places, RemoveFirst(old(Rows(joinedLinks)), old(participant.Row())))
      ensures promoted.Some? ==> MovedUp(promoted.value, places)
    {
      var removed := RemoveLink(participant.Row());
      if !removed {
        return None, [];
      }
      assert forall l <- joinedLinks :: l in old(joinedLinks);
      var moved;
      moved, places := PromoteFromWaitingList();
      promoted := Some(moved);
    }

    // `None` when the meeting is full and keeps no waiting list. The new row carries the key the database
    // gives it.
    method AddParticipant(userId: int, invitedBy: Option<int>, createdTime: int, id: int)
        returns (link: Option<JoinedUsers>)
      requires Valid()
      requires Possible(View(), Join(Link(createdTime, id, userId, invitedBy, false, false)))
      modifies this`joinedLinks
      ensures Valid() && View() == Next(old(View()), Join(Link(createdTime, id, userId, invitedBy, false, false)))
      ensures link.None? <==> Full(old(View())) && !waitingList
      ensures IsNew(old(View()), userId) ==>
                joinedLinks == if link.Some? then old(joinedLinks) + [link.value] else old(joinedLinks)
      ensures link.Some? ==>
                && fresh(link.value)
                && link.value.Row() == Link(createdTime, id, userId, invitedBy, Full(old(View())), false)
    {
      var participants, _ := Counts();
      var cap := EffectiveParticipantCapacity(ownerLevel, freeParticipantCapacity, maxMembers);
      var full := cap.Some? && participants >= cap.value;
      if full && !waitingList {
        return None;
      }
      var created := CreateJoinedLink(userId, full, invitedBy, createdTime, id);
      link := Some(created);
    }

    method CreateJoinedLink(userId: int, isWaitingList: bool, invitedBy: Option<int>, createdTime: int, id: int)
        returns (link: JoinedUsers)
      requires Valid()
      requires Possible(View(), Join(Link(createdTime, id, userId, invitedBy, isWaitingList, false)))
      modifies this`joinedLinks
      ensures Valid() && View() == Joined(old(View()), Link(createdTime, id, userId, invitedBy, isWaitingList, false))
      ensures fresh(link) && link.Row() == Link(createdTime, id, userId, invitedBy, isWaitingList, false)
      ensures IsNew(old(View()), userId) ==> joinedLinks == old(joinedLinks) + [link]
    {
      ghost var rows := Rows(joinedLinks);
      link := new JoinedUsers(createdTime, id, userId, invitedBy, isWaitingList);
      assert Rows(joinedLinks) == rows;
      var k := Find(link.Row());
      if k == |joinedLinks| {
        joinedLinks := joinedLinks + [link];
        assert Rows(joinedLinks) == rows + [link.Row()];
      }
    }

    method SetParticipantLimit(newMaxMembers: Option<int>) returns (promoted: seq<JoinedUsers>, ghost places: seq<Link>)
      requires Valid()
      modifies this`maxMembers, set l <- joinedLinks :: l`isWaitingList
      ensures Valid() && View() == Next(old(View()), Event.SetParticipantLimit(newMaxMembers))
      ensures maxMembers == newMaxMembers && joinedLinks == old(joinedLinks)
      ensures |promoted| == |places| == FreePlaces(old(View()).(maxMembers := newMaxMembers))
          && AtPlaces(places, old(Rows(joinedLinks)))
      ensures MovedUp(promoted, places)
    {
      maxMembers := newMaxMembers;
      promoted, places := PromoteFromWaitingList();
    }

    method PlacesToFill() returns (toPromote: nat)
      ensures toPromote == FreePlaces(View()) && toPromote <= NWaiting(Rows(joinedLinks))
    {
      var participants, waiting := Counts();
      match EffectiveParticipantCapacity(ownerLevel, freeParticipantCapacity, maxMembers)
      case None => toPromote := waiting;
      case Some(cap) =>
        var free := if waiting < cap - participants then waiting else cap - participants;
        toPromote := if free < 0 then 0 else free;
    }

    // Confirms the first `n` of the queue.
    method Confirm(queue: seq<JoinedUsers>, n: nat) returns (promoted: seq<JoinedUsers>, ghost places: seq<Link>)
      requires Valid() && n == FreePlaces(View()) && forall l <- queue :: l in joinedLinks && l.isWaitingList
      requires InQueueOrder(Rows(queue), Rows(joinedLinks))
      modifies set l <- joinedLinks :: l`isWaitingList
      ensures Valid() && View() == Promoted(old(View())) && |promoted| == n
      ensures AtPlaces(places, old(Rows(joinedLinks))) && |places| == |promoted|
      ensures MovedUp(promoted, places)
    {
      HeadOfQueue(queue, n);
      HeadIsAtPlaces(Rows(queue), Rows(joinedLinks), n);
      places := Rows(queue[..n]);
      assert places == Rows(queue)[..n];
      ghost var was := View();
      promoted := Flip(queue, n);
      RowsAfter(was, n);
    }

    method Flip(queue: seq<JoinedUsers>, n: nat) returns (promoted: seq<JoinedUsers>)
      requires n <= |queue| && forall l <- queue :: l in joinedLinks
      modifies set l <- joinedLinks :: l`isWaitingList
      ensures promoted == queue[..n]
      ensures forall k | 0 <= k < |joinedLinks| ::
                var stays := old(joinedLinks[k].isWaitingList) && joinedLinks[k] !in promoted;
                joinedLinks[k].Row() == old(joinedLinks[k].Row()).(waiting := stays)
    {
      promoted := [];
      while |promoted| < n
        invariant |promoted| <= n && promoted == queue[..|promoted|]
        invariant forall l <- joinedLinks :: l.isWaitingList == (old(l.isWaitingList) && l !in promoted)
      {
        var link := queue[|promoted|];
        assert link in joinedLinks;
        link.isWaitingList := false;
        promoted := promoted + [link];
      }
    }

    // Once the links with fewer than `n` in front of them are confirmed, the meeting is the promoted one.
    lemma RowsAfter(was: Meeting, n: nat)
      requires n == FreePlaces(was) && View() == was.(links := Rows(joinedLinks)) && |was.links| == |joinedLinks|
          && Ordered(was.links)
      requires forall k | 0 <= k < |joinedLinks| :: joinedLinks[k].Row() == PromoteFirst(was.links, n)[k]
      ensures Valid() && View() == Promoted(was)
    {
      assert Rows(joinedLinks) == PromoteFirst(was.links, n);
    }

    // The objects at the head of the queue are those with fewer than `n` in front of them.
    lemma HeadOfQueue(queue: seq<JoinedUsers>, n: nat)
      requires Valid() && n <= |queue| && forall l <- queue :: l in joinedLinks
      requires InQueueOrder(Rows(queue), Rows(joinedLinks))
      ensures forall k | 0 <= k < |joinedLinks| ::
                PromoteFirst(Rows(joinedLinks), n)[k] ==
                joinedLinks[k].Row().(waiting := joinedLinks[k].isWaitingList && joinedLinks[k] !in queue[..n])
    {
      var rows := Rows(joinedLinks);
      forall k | 0 <= k < |joinedLinks|
        ensures joinedLinks[k] in queue[..n] <==> joinedLinks[k].isWaitingList && Ahead(rows, rows[k]) < n
      {
        if joinedLinks[k] in queue[..n] {
          var i :| 0 <= i < n && queue[..n][i] == joinedLinks[k];
          assert Rows(queue)[i] == rows[k];
        }
        if joinedLinks[k].isWaitingList && Ahead(rows, rows[k]) < n {
          var r := Ahead(rows, rows[k]);
          assert queue[r] in joinedLinks;
          var j :| 0 <= j < |joinedLinks| && joinedLinks[j] == queue[r];
          assert Ahead(rows, Rows(queue)[r]) == r;
          SameRank(rows, j, k);
          assert queue[..n][r] == joinedLinks[k];
        }
      }
    }
  }
}
