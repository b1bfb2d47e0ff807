// The jobs of the background worker and the rules that merge two submits made under one key
// (libs/telegram/mitup_bot/card_refresh.py, libs/telegram/mitup_bot/api_wrapper.py).
module BackgroundJobs {
  import opened Wrappers

  type MeetingId = nat
  type CardId = nat

  // `JobKey` is an arbitrary tuple in the source; all that matters is that every refresh of one
  // meeting shares one key and that a keyed send is filed under whatever key its caller picked.
  datatype JobKey = MeetingKey(meeting: MeetingId) | SendKey(name: string)

  // The cards a refresh is scoped to: None stands for every card the meeting still tracks.
  type Scope = Option<set<CardId>>

  datatype Job =
    | MeetingRefresh(
        meeting: MeetingId,
        skip: Option<CardId>,
        scope: Scope,
        origin: Option<int>,
        holdSeconds: real,
        coalesced: nat,
        attempt: nat,
        enqueuedAt: real,
        holdSince: real)
    | KeyedSend(
        sendKey: JobKey,
        chat: int,
        payload: string,
        origin: Option<int>,
        holdSeconds: real,
        coalesced: nat,
        attempt: nat,
        enqueuedAt: real,
        holdSince: real)
  {
    function Key(): JobKey {
      if MeetingRefresh? then MeetingKey(meeting) else sendKey
    }
  }

  function MergeSkip(waiting: Option<CardId>, incoming: Option<CardId>): Option<CardId> {
    if waiting == incoming then waiting else None
  }

  function MergeScopes(waiting: Scope, incoming: Scope): Scope {
    if waiting.None? || incoming.None? then None else Some(waiting.value + incoming.value)
  }

  function Coalesce(waiting: Job, incoming: Job): Job
    requires waiting.MeetingRefresh? && incoming.MeetingRefresh?
  {
    waiting.(
      skip := MergeSkip(waiting.skip, incoming.skip),
      scope := MergeScopes(waiting.scope, incoming.scope),
      coalesced := waiting.coalesced + 1,
      holdSeconds := incoming.holdSeconds,
      holdSince := incoming.holdSince)
  }

  function MergeJobs(waiting: Job, incoming: Job): Job {
    if waiting.MeetingRefresh? && incoming.MeetingRefresh? then
      Coalesce(waiting, incoming)
    else
      incoming.(
        origin := waiting.origin,
        coalesced := waiting.coalesced + 1,
        attempt := waiting.attempt,
        enqueuedAt := waiting.enqueuedAt)
  }

  predicate InScope(scope: Scope, card: CardId) {
    scope.None? || card in scope.value
  }

  // Whether a refresh draws a card its meeting tracks when the worker runs it.
  predicate Draws(job: Job, card: CardId) {
    job.MeetingRefresh? && InScope(job.scope, card) && job.skip != Some(card)
  }

  lemma MergeKeepsKey(waiting: Job, incoming: Job)
    requires waiting.Key() == incoming.Key()
    ensures MergeJobs(waiting, incoming).Key() == incoming.Key()
  {
  }

  // One job stands in for both submits, so it draws at least what either of them asked for.
  lemma MergeDrawsBoth(waiting: Job, incoming: Job, card: CardId)
    requires waiting.MeetingRefresh? && incoming.MeetingRefresh?
    requires Draws(waiting, card) || Draws(incoming, card)
    ensures Draws(MergeJobs(waiting, incoming), card)
  {
  }

  // The job left waiting once `later` has been merged, oldest first, into `first`.
  function MergeAll(first: Job, later: seq<Job>): Job {
    if later == [] then first
    else MergeJobs(MergeAll(first, later[..|later| - 1]), later[|later| - 1])
  }

  ghost predicate AllRefreshOf(meeting: MeetingId, jobs: seq<Job>) {
    forall i | 0 <= i < |jobs| :: jobs[i].MeetingRefresh? && jobs[i].meeting == meeting
  }

  ghost predicate AllSend(jobs: seq<Job>) {
    forall i | 0 <= i < |jobs| :: jobs[i].KeyedSend?
  }

  ghost predicate SkipsAgree(jobs: seq<Job>) {
    forall i, j | 0 <= i < |jobs| && 0 <= j < |jobs| :: jobs[i].MeetingRefresh? && jobs[j].MeetingRefresh?
        ==> jobs[i].skip == jobs[j].skip
  }

  ghost predicate SomeScopeHas(jobs: seq<Job>, card: CardId) {
    exists i | 0 <= i < |jobs| :: jobs[i].MeetingRefresh? && InScope(jobs[i].scope, card)
  }

  ghost predicate SomeDraws(jobs: seq<Job>, card: CardId) {
    exists i | 0 <= i < |jobs| :: Draws(jobs[i], card)
  }

  // The closed form of coalescing: the waiting refresh keeps the oldest submit's identity and the
  // newest one's hold, its scope is the union (None absorbing), and a skip survives only when every
  // submit named it.
  lemma {:induction false} CoalescedRefreshClosedForm(first: Job, later: seq<Job>)
    requires first.MeetingRefresh? && AllRefreshOf(first.meeting, [first] + later)
    ensures var jobs := [first] + later;
            var last := jobs[|jobs| - 1];
            var merged := MergeAll(first, later);
            && merged.MeetingRefresh?
            && merged.meeting == first.meeting
            && merged.origin == first.origin
            && merged.enqueuedAt == first.enqueuedAt
            && merged.attempt == first.attempt
            && merged.coalesced == first.coalesced + |later|
            && merged.holdSeconds == last.holdSeconds
            && merged.holdSince == last.holdSince
            && (merged.scope.None? <==> exists i | 0 <= i < |jobs| :: jobs[i].scope.None?)
            && (forall card :: InScope(merged.scope, card) <==> SomeScopeHas(jobs, card))
            && merged.skip == (if SkipsAgree(jobs) then first.skip else None)
  {
    var jobs := [first] + later;
    if later == [] {
      assert jobs == [first];
    } else {
      var n := |later| - 1;
      var before := [first] + later[..n];
      assert jobs == before + [later[n]];
      assert jobs[n + 1] == later[n];
      assert forall i | 0 <= i < |before| :: before[i] == jobs[i];
      CoalescedRefreshClosedForm(first, later[..n]);
      var held := MergeAll(first, later[..n]);
      assert MergeAll(first, later) == Coalesce(held, later[n]);
      forall card
        ensures SomeScopeHas(jobs, card) <==> SomeScopeHas(before, card) || InScope(later[n].scope, card)
      {
        SomeScopeSplits(before, later[n], card);
      }
      assert held.scope.None? <==> exists i | 0 <= i < |before| :: before[i].scope.None?;
      if exists i | 0 <= i < |before| :: before[i].scope.None? {
        var i :| 0 <= i < |before| && before[i].scope.None?;
        assert jobs[i].scope.None?;
      }
      SkipsAgreeSplits(before, later[n]);
      assert before[0] == first;
    }
  }

  lemma SomeScopeSplits(before: seq<Job>, last: Job, card: CardId)
    requires last.MeetingRefresh?
    ensures SomeScopeHas(before + [last], card) <==> SomeScopeHas(before, card) || InScope(last.scope, card)
  {
    var jobs := before + [last];
    if SomeScopeHas(before, card) {
      var i :| 0 <= i < |before| && before[i].MeetingRefresh? && InScope(before[i].scope, card);
      assert jobs[i] == before[i];
    }
    if InScope(last.scope, card) {
      assert jobs[|before|] == last;
    }
  }

  lemma SkipsAgreeSplits(before: seq<Job>, last: Job)
    requires last.MeetingRefresh? && |before| > 0
    requires forall i | 0 <= i < |before| :: before[i].MeetingRefresh?
    ensures SkipsAgree(before + [last]) <==> SkipsAgree(before) && before[0].skip == last.skip
  {
    var jobs := before + [last];
    assert jobs[|before|] == last && jobs[0] == before[0];
    if SkipsAgree(jobs) {
      forall i, j | 0 <= i < |before| && 0 <= j < |before|
        ensures before[i].skip == before[j].skip
      {
        assert jobs[i] == before[i] && jobs[j] == before[j];
      }
    }
  }

  // Exactly which cards the merged refresh draws: with agreeing skips the union of what the submits
  // would have drawn, otherwise every card any of them is scoped to.
  lemma CoalescedDrawSet(first: Job, later: seq<Job>, card: CardId)
    requires first.MeetingRefresh? && AllRefreshOf(first.meeting, [first] + later)
    ensures var jobs := [first] + later;
            && (SomeDraws(jobs, card) ==> Draws(MergeAll(first, later), card))
            && (SkipsAgree(jobs) ==> (Draws(MergeAll(first, later), card) <==> SomeDraws(jobs, card)))
            && (!SkipsAgree(jobs) ==> (Draws(MergeAll(first, later), card) <==> SomeScopeHas(jobs, card)))
  {
    var jobs := [first] + later;
    CoalescedRefreshClosedForm(first, later);
    var merged := MergeAll(first, later);
    assert InScope(merged.scope, card) <==> SomeScopeHas(jobs, card);
    if SomeDraws(jobs, card) {
      var i :| 0 <= i < |jobs| && Draws(jobs[i], card);
      assert jobs[i].MeetingRefresh? && InScope(jobs[i].scope, card);
      assert jobs[0] == first;
    }
    if SkipsAgree(jobs) && Draws(merged, card) {
      var i :| 0 <= i < |jobs| && jobs[i].MeetingRefresh? && InScope(jobs[i].scope, card);
      assert jobs[0].skip == jobs[i].skip;
      assert Draws(jobs[i], card);
    }
  }

  // A burst of keyed sends leaves the last rendered message, reported as the oldest submit's wait.
  lemma {:induction false} CoalescedSendClosedForm(first: Job, later: seq<Job>)
    requires AllSend([first] + later) && first.KeyedSend?
    ensures var jobs := [first] + later;
            var last := jobs[|jobs| - 1];
            MergeAll(first, later) == last.(
              origin := first.origin,
              coalesced := first.coalesced + |later|,
              attempt := first.attempt,
              enqueuedAt := first.enqueuedAt)
  {
    var jobs := [first] + later;
    if later != [] {
      var n := |later| - 1;
      var before := [first] + later[..n];
      assert jobs == before + [later[n]];
      assert forall i | 0 <= i < |before| :: before[i] == jobs[i];
      CoalescedSendClosedForm(first, later[..n]);
      assert jobs[|jobs| - 1] == later[n];
      assert later[n].KeyedSend? by { assert jobs[n + 1] == later[n]; }
    }
  }
}
