// One input for each way `Freshness.Loses` names: a state in which no card is lost yet, of a meeting with
// cards 1 and 2, and a step that loses card 1.
module FreshnessRaces {
  import opened Wrappers
  import opened BackgroundJobs
  import opened RefreshQueues
  import opened Freshness

  function At(one: Card, two: Card, open: map<InvocationId, Invocation>, pending: seq<Job>, job: Option<Job>,
              progress: Progress): World {
    var inFlight := if job.None? then map[] else map[MeetingKey(0) := RunningJob(job.value, 0.0)];
    World(map[1 := one, 2 := two], open, Queue(pending, inFlight, true, 500), progress)
  }

  function Refresh(skip: Option<CardId>, scope: Scope): Job {
    MeetingRefresh(0, skip, scope, None, 0.0, 0, 1, 0.0, 0.0)
  }

  const EVERY_CARD := Refresh(None, None)
  // Changed once and not drawn since.
  const STALE := Card(0, 1, 0)

  // One invocation open and nothing queued.
  function Idle(one: Card, two: Card, id: InvocationId, inv: Invocation): World {
    At(one, two, map[id := inv], [], None, Unread)
  }

  // Two stale cards and a refresh of both in flight.
  function Flying(pending: seq<Job>, progress: Progress): (w: World)
    ensures w.queue.inFlight != map[]
  {
    var w := At(STALE, STALE, map[], pending, Some(EVERY_CARD), progress);
    assert MeetingKey(0) in w.queue.inFlight;
    w
  }

  const RENDERED := Read(map[1 := 1, 2 := 1])

  ghost predicate LosesCardOne(w: World, s: Step) {
    Inv(w) && Possible(w, s) && 1 in w.cards && Loses(w, s, 1)
  }

  // Interrupted, a refresh of every card gives way to one scoped to card 2.
  lemma NarrowRequeueLosesACard()
    ensures LosesCardOne(Flying([Refresh(None, Some({2}))], Unread), InterruptJob)
  {
  }

  // A refresh that raises is not put back.
  lemma FailedRefreshLosesACard()
    ensures LosesCardOne(Flying([], Unread), FailJob)
  {
  }

  // Nor is an edit that fails inside it.
  lemma FailedEditLosesACard()
    ensures LosesCardOne(Flying([], RENDERED), MissCard(1))
  {
  }

  // The job in flight has rendered card 1 before the change, and the change is deferred to card 2 alone.
  lemma OwnCardOutOfScopeIsLost()
    ensures LosesCardOne(Flying([], RENDERED), Commit(11, 0, Some(1), Some({2}), {1, 2}))
  {
  }

  // The same, with no card behind the own one: nothing is deferred at all.
  lemma OnlyCardIsLost()
    ensures LosesCardOne(Flying([], RENDERED), Commit(11, 0, Some(1), Some({1}), {1}))
  {
  }

  // Invocation 11 committed after 10 and has drawn card 1; now 10 draws it.
  lemma CrossedDrawsLoseACard()
    ensures LosesCardOne(Idle(Card(0, 2, 2), Card(0, 2, 0), 10, Invocation(0, Some(1), None, 1, false, true, false)),
        DrawOwn(10))
  {
  }

  // An own edit that fails leaves its card to nobody.
  lemma FailedOwnDrawLosesACard()
    ensures LosesCardOne(Idle(STALE, STALE, 11, Invocation(0, Some(1), None, 1, false, true, false)), MissOwn(11))
  {
  }

  // A job in flight at the commit has put an older state over the card invocation 11 drew, and has ended.
  lemma SkipAfterFlightLosesACard()
    ensures LosesCardOne(Idle(Card(0, 2, 1), Card(0, 2, 1), 11, Invocation(0, Some(1), None, 2, true, true, true)),
                         SubmitDeferred(11, None, 0.0, 0.0))
  {
  }

  // A stopping queue refuses the refresh.
  lemma RefusedSubmitLosesACard()
    ensures var w := Idle(STALE, STALE, 10, Invocation(0, None, None, 0, false, true, false));
            LosesCardOne(w.(queue := w.queue.(accepting := false)), SubmitDeferred(10, None, 0.0, 0.0))
  {
  }
}
