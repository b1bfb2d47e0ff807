// What the chats show once the background worker is left to itself: it comes to rest, and the cards are
// then up to date exactly when none was lost before.
module Settling {
  import opened Wrappers
  import opened BackgroundJobs
  import opened RefreshQueues
  import opened Freshness

  // The steps of the worker alone: a job is taken only once its hold has run out, and every edit lands.
  ghost predicate WorkerStep(w: World, s: Step) {
    match s
    case TakeJob(now) => FirstReady(w.queue, now) < |w.queue.pending|
    case ReadMeeting => true
    case DrawCard(_) => true
    case FinishJob => true
    case _ => false
  }

  ghost predicate WorkerRun(w: World, steps: seq<Step>)
    decreases |steps|
  {
    steps == []
    || (&& AtMostOneInFlight(w.queue) && Possible(w, steps[0]) && WorkerStep(w, steps[0])
        && WorkerRun(Next(w, steps[0]), steps[1..]))
  }

  ghost function WorkerEnd(w: World, steps: seq<Step>): World
    requires WorkerRun(w, steps)
    decreases |steps|
  {
    if steps == [] then w else WorkerEnd(Next(w, steps[0]), steps[1..])
  }

  // ---- The worker comes to rest ----

  function Times(n: nat, k: nat): nat {
    if n == 0 then 0 else Times(n - 1, k) + k
  }

  // Each waiting job costs at most a take, a read, one draw a card and a finish.
  function Measure(w: World): nat {
    Times(|w.queue.pending|, |w.cards| + 3)
    + (if w.queue.inFlight == map[] then 0
       else match w.progress
            case Unread => |w.cards| + 2
            case Read(todo) => |todo| + 1)
  }

  lemma SnapshotIsSmall(w: World, job: Job)
    ensures job.MeetingRefresh? ==> |Snapshot(w, job)| <= |w.cards|
    ensures job.KeyedSend? ==> Snapshot(w, job) == map[]
  {
    if job.MeetingRefresh? {
      var drawn := Snapshot(w, job);
      assert drawn.Keys <= w.cards.Keys;
      SubsetIsSmaller(drawn.Keys, w.cards.Keys);
      assert |drawn| == |drawn.Keys| && |w.cards| == |w.cards.Keys|;
    }
  }

  lemma {:induction false} SubsetIsSmaller<T>(a: set<T>, b: set<T>)
    requires a <= b
    ensures |a| <= |b|
  {
    if a != {} {
      var x :| x in a;
      SubsetIsSmaller(a - {x}, b - {x});
    }
  }

  // Left to itself the worker cannot run forever.
  lemma WorkerMakesProgress(w: World, s: Step)
    requires Structure(w) && Possible(w, s) && WorkerStep(w, s)
    ensures Safe(w, s) && Measure(Next(w, s)) < Measure(w)
  {
    match s
    case TakeJob(now) => TakeProgress(w, now);
    case ReadMeeting => SnapshotIsSmall(w, TheJob(w.queue));
    case DrawCard(card) => DrawProgress(w, card);
    case FinishJob => JobEnds(w);
  }

  lemma TakeProgress(w: World, now: real)
    requires Structure(w) && Possible(w, TakeJob(now)) && WorkerStep(w, TakeJob(now))
    ensures Measure(Next(w, TakeJob(now))) < Measure(w)
  {
    assert |TakeFrom(w.queue, now).pending| == |w.queue.pending| - 1;
  }

  lemma ShowKeepsCards(w: World, card: CardId, version: nat)
    ensures Show(w, card, version).cards.Keys == w.cards.Keys
    ensures |Show(w, card, version).cards| == |w.cards|
  {
    var cards := Show(w, card, version).cards;
    assert cards.Keys == w.cards.Keys;
    assert |cards| == |cards.Keys| && |w.cards| == |w.cards.Keys|;
  }

  lemma DrawLeaves(w: World, card: CardId)
    requires AtMostOneInFlight(w.queue) && Possible(w, DrawCard(card))
    ensures var after := Next(w, DrawCard(card));
            after.queue == w.queue && |after.cards| == |w.cards| && after.progress == Read(w.progress.todo - {card})
  {
    ShowKeepsCards(w, card, w.progress.todo[card]);
  }

  lemma DrawProgress(w: World, card: CardId)
    requires AtMostOneInFlight(w.queue) && Possible(w, DrawCard(card))
    ensures Measure(Next(w, DrawCard(card))) < Measure(w)
  {
    DrawLeaves(w, card);
    RemovingOne(w.progress.todo, card);
    var waiting := Times(|w.queue.pending|, |w.cards| + 3);
    assert Measure(w) == waiting + |w.progress.todo| + 1;
    assert Measure(Next(w, DrawCard(card))) == waiting + |w.progress.todo - {card}| + 1;
  }

  lemma RemovingOne(todo: map<CardId, nat>, card: CardId)
    requires card in todo
    ensures |todo - {card}| == |todo| - 1
  {
    assert (todo - {card}).Keys == todo.Keys - {card};
    assert |todo - {card}| == |(todo - {card}).Keys| && |todo| == |todo.Keys|;
  }

  // It stops only when nothing is left: with every hold over, some step of it can be made.
  lemma WorkerIsNotStuck(w: World, now: real) returns (s: Step)
    requires w.queue.pending != [] || w.queue.inFlight != map[]
    requires forall job | job in w.queue.pending :: Ready(w.queue, job, now)
    ensures Possible(w, s) && WorkerStep(w, s)
  {
    if w.queue.inFlight == map[] {
      assert w.queue.pending[0] in w.queue.pending;
      s := TakeJob(now);
    } else if w.progress.Unread? {
      s := ReadMeeting;
    } else if w.progress.todo == map[] {
      s := FinishJob;
    } else {
      var card :| card in w.progress.todo;
      s := DrawCard(card);
    }
  }

  lemma {:induction false} HoldsEnd(q: Queue, pending: seq<Job>) returns (now: real)
    ensures forall job | job in pending :: Ready(q, job, now)
  {
    if pending == [] {
      now := 0.0;
    } else {
      var first := pending[0];
      var rest := HoldsEnd(q, pending[1..]);
      now := MaxReal(rest, first.holdSince + first.holdSeconds);
      assert forall job | job in pending :: job == first || job in pending[1..];
    }
  }

  // From any state in which no invocation is open some run of the worker comes to rest.
  lemma {:induction false} WorkerSettles(w: World) returns (steps: seq<Step>)
    requires Structure(w) && w.open == map[]
    ensures WorkerRun(w, steps) && AtRest(WorkerEnd(w, steps))
    decreases Measure(w)
  {
    if w.queue.pending == [] && w.queue.inFlight == map[] {
      steps := [];
    } else {
      var now := HoldsEnd(w.queue, w.queue.pending);
      var s := WorkerIsNotStuck(w, now);
      WorkerMakesProgress(w, s);
      StepKeepsStructure(w, s);
      var rest := WorkerSettles(Next(w, s));
      steps := [s] + rest;
      assert steps[1..] == rest;
    }
  }

  // ---- What it settles on ----

  // The worker repairs nothing by itself: a lost card stays lost.
  lemma LostStays(w: World, s: Step, card: CardId)
    requires Structure(w) && w.open == map[] && Possible(w, s) && WorkerStep(w, s)
    requires card in w.cards && Lost(w, card)
    ensures card in Next(w, s).cards && Lost(Next(w, s), card)
  {
    match s
    case TakeJob(now) => TakeMoves(w.queue, now);
    case ReadMeeting =>
      var key :| key in w.queue.inFlight;
      TheJobIs(w.queue, key);
    case DrawCard(_) =>
    case FinishJob => JobEnds(w);
  }

  lemma WorkerStepSettles(w: World, s: Step)
    requires Structure(w) && w.open == map[] && Possible(w, s) && WorkerStep(w, s)
    ensures Structure(Next(w, s)) && Next(w, s).open == map[]
    ensures Promise(Next(w, s)) <==> Promise(w)
  {
    StepKeepsStructure(w, s);
    if Promise(w) {
      StepKeepsInvIff(w, s);
    } else {
      var card :| card in w.cards && Lost(w, card);
      LostStays(w, s, card);
    }
  }

  // Whichever way the worker comes to rest, every card is up to date exactly when none was lost at the
  // start.
  lemma {:induction false} WorkerSettlesIff(w: World, steps: seq<Step>)
    requires Structure(w) && w.open == map[] && WorkerRun(w, steps) && AtRest(WorkerEnd(w, steps))
    ensures AllFresh(WorkerEnd(w, steps)) <==> Promise(w)
    decreases |steps|
  {
    if steps == [] {
      assert forall card | card in w.cards :: Lost(w, card) <==> !Fresh(w, card);
    } else {
      WorkerStepSettles(w, steps[0]);
      WorkerSettlesIff(Next(w, steps[0]), steps[1..]);
    }
  }

  // The step that closes the last open invocation, and every step made while none is open, decides alone:
  // the cards end up to date exactly when it is safe.
  lemma StepSettlesIff(w: World, s: Step, steps: seq<Step>)
    requires Inv(w) && Possible(w, s) && Next(w, s).open == map[]
    requires WorkerRun(Next(w, s), steps) && AtRest(WorkerEnd(Next(w, s), steps))
    ensures AllFresh(WorkerEnd(Next(w, s), steps)) <==> Safe(w, s)
  {
    StepKeepsInvIff(w, s);
    WorkerSettlesIff(Next(w, s), steps);
  }

  // An interrupted job may give way to a waiting one exactly when no stale card is left to it alone.
  lemma InterruptSettlesIff(w: World, steps: seq<Step>)
    requires Inv(w) && w.open == map[] && Possible(w, InterruptJob)
    requires WorkerRun(Next(w, InterruptJob), steps) && AtRest(WorkerEnd(Next(w, InterruptJob), steps))
    ensures AllFresh(WorkerEnd(Next(w, InterruptJob), steps))
       <==> Waiting(w.queue.pending, TheJob(w.queue).Key()).None?
            || forall card | card in w.cards && FlightDraws(w, card) && !Fresh(w, card) :: PendingDraws(w, card)
  {
    StepSettlesIff(w, InterruptJob, steps);
    NothingOwed(w);
  }

  // An interrupted refresh may be expected to give way to one scoped to everything it had to draw.
  predicate RequeueCovers(interrupted: Job, waiting: Job)
    requires interrupted.MeetingRefresh? && waiting.MeetingRefresh?
  {
    || waiting.scope.None?
    || (interrupted.scope.Some?
        && forall card | card in interrupted.scope.value :: interrupted.skip == Some(card)
            || card in waiting.scope.value)
  }

  // `requeue` leaves a refresh submitted meanwhile alone on the grounds that it covers every card the
  // interrupted one would have drawn. Of the cards there may be, it does exactly when its scope is wide
  // enough.
  lemma RequeueCoversExactly(interrupted: Job, waiting: Job)
    requires interrupted.MeetingRefresh? && waiting.MeetingRefresh? && waiting.skip.None?
    ensures RequeueCovers(interrupted, waiting)
       <==> forall card :: Draws(interrupted, card) ==> Draws(waiting, card)
  {
    if !RequeueCovers(interrupted, waiting) {
      var missed: CardId;
      if interrupted.scope.None? {
        missed := AboveAll(waiting.scope.value + if interrupted.skip.Some? then {interrupted.skip.value} else {});
      } else {
        missed :| missed in interrupted.scope.value && interrupted.skip != Some(missed)
            && missed !in waiting.scope.value;
      }
      assert Draws(interrupted, missed) && !Draws(waiting, missed);
    }
  }

  lemma {:induction false} AboveAll(cards: set<CardId>) returns (bound: CardId)
    ensures forall card | card in cards :: card < bound
    decreases |cards|
  {
    if cards == {} {
      bound := 0;
    } else {
      var card :| card in cards;
      var rest := AboveAll(cards - {card});
      bound := if card < rest then rest else card + 1;
      assert forall other | other in cards :: other == card || other in cards - {card};
    }
  }

  // A waiting refresh that covers the interrupted one loses no card, whatever is open.
  lemma CoveringRequeueIsSafe(w: World)
    requires Structure(w) && Possible(w, InterruptJob)
    requires var job := TheJob(w.queue);
             var waiting := Waiting(w.queue.pending, job.Key());
             job.MeetingRefresh? && waiting.Some? ==> waiting.value.MeetingRefresh? && RequeueCovers(job, waiting.value)
    ensures Safe(w, InterruptJob)
  {
    var key :| key in w.queue.inFlight;
    TheJobIs(w.queue, key);
  }

  // A job may fail exactly when no stale card is left to it alone.
  lemma FailSettlesIff(w: World, steps: seq<Step>)
    requires Inv(w) && w.open == map[] && Possible(w, FailJob)
    requires WorkerRun(Next(w, FailJob), steps) && AtRest(WorkerEnd(Next(w, FailJob), steps))
    ensures AllFresh(WorkerEnd(Next(w, FailJob), steps))
       <==> forall card | card in w.cards && FlightDraws(w, card) && !Fresh(w, card) :: PendingDraws(w, card)
  {
    StepSettlesIff(w, FailJob, steps);
    NothingOwed(w);
  }

  lemma NothingOwed(w: World)
    requires w.open == map[]
    ensures forall card | card in w.cards :: !SubmitOwed(w, card) && !ShowOwed(w, card)
  {
  }

  // An accepted submit that closes the last invocation loses a card exactly when a job that was in flight
  // at the commit has ended, has left the invocation's own card stale, and no waiting refresh passes over
  // another card.
  lemma SubmitSettlesIff(w: World, s: Step, steps: seq<Step>)
    requires Inv(w) && s.SubmitDeferred? && Possible(w, s) && w.open.Keys == {s.id}
    requires w.open[s.id].defers ==> Accepted(w, w.open[s.id], s.origin, s.holdSeconds, s.now)
    requires WorkerRun(Next(w, s), steps) && AtRest(WorkerEnd(Next(w, s), steps))
    ensures AllFresh(WorkerEnd(Next(w, s), steps)) <==> !LeftStaleByEndedJob(w, w.open[s.id])
  {
    var inv := w.open[s.id];
    assert Next(w, s).open == map[];
    StepSettlesIff(w, s, steps);
    NothingOwed(Without(w, s.id));
    if LeftStaleByEndedJob(w, inv) {
      assert Loses(w, s, inv.own.value);
    }
    forall card | card in w.cards && Loses(w, s, card)
      ensures LeftStaleByEndedJob(w, inv)
    {
      WaitingIsRefresh(w, inv.meeting);
    }
  }

  lemma WaitingIsRefresh(w: World, meeting: MeetingId)
    requires Structure(w)
    ensures var waiting := Waiting(w.queue.pending, MeetingKey(meeting));
            waiting.Some? ==> waiting.value.MeetingRefresh?
  {
    if Waiting(w.queue.pending, MeetingKey(meeting)).Some? {
      WaitingMember(w.queue.pending, MeetingKey(meeting));
    }
  }

  predicate LeftStaleByEndedJob(w: World, inv: Invocation) {
    && inv.own.Some? && inv.own.value in w.cards && WillSubmit(inv, inv.own.value)
    && !InFlight(w, inv.meeting) && !Fresh(w, inv.own.value)
    && var waiting := Waiting(w.queue.pending, MeetingKey(inv.meeting));
       waiting.Some? && waiting.value.MeetingRefresh? ==> waiting.value.skip == inv.own
  }

  // ---- One whole invocation ----

  ghost function Committed(w: World, s: Step): World
    requires s.Commit? && Possible(w, s) && AtMostOneInFlight(w.queue)
  {
    var after := Next(w, s);
    if s.own.Some? then Next(after, DrawOwn(s.id)) else after
  }

  // A commit whose own edit lands and whose refresh is accepted at once, with nothing else open, leaves
  // every card up to date exactly when the commit is safe: when its own card was changed under a job that
  // has rendered an older state of it, some refresh covers the card.
  lemma InvocationSettlesIff(w: World, s: Step, submit: Step, steps: seq<Step>)
    requires Inv(w) && w.open == map[] && s.Commit? && Possible(w, s)
    requires submit.SubmitDeferred? && submit.id == s.id
    requires var done := Committed(w, s);
             && (done.open[s.id].defers
                 ==> Accepted(done, done.open[s.id], submit.origin, submit.holdSeconds, submit.now))
             && WorkerRun(Next(done, submit), steps) && AtRest(WorkerEnd(Next(done, submit), steps))
    ensures AllFresh(WorkerEnd(Next(Committed(w, s), submit), steps)) <==> Safe(w, s)
  {
    var done := Committed(w, s);
    CommittedIs(w, s);
    if Safe(w, s) {
      SubmitSettlesIff(done, submit, steps);
    } else {
      var card :| card in w.cards && Loses(w, s, card);
      StepKeepsStructure(done, submit);
      UnsafeCommitStays(w, s, submit, card);
      WorkerSettlesIff(Next(done, submit), steps);
    }
  }

  // A commit leaves its invocation ready to submit, with its own card up to date if there is one.
  lemma CommittedIs(w: World, s: Step)
    requires Inv(w) && w.open == map[] && s.Commit? && Possible(w, s)
    ensures var done := Committed(w, s);
            && Structure(done) && (Safe(w, s) ==> Inv(done)) && done.open.Keys == {s.id}
            && done.open[s.id].own == s.own && (s.own.Some? ==> done.open[s.id].ownDrawn)
            && (s.own.Some? && s.own.value in done.cards ==> Fresh(done, s.own.value))
  {
    StepKeepsInvIff(w, s);
    if s.own.Some? {
      StepKeepsStructure(Next(w, s), DrawOwn(s.id));
      if Safe(w, s) {
        StepKeepsInvIff(Next(w, s), DrawOwn(s.id));
      }
    }
  }

  lemma UnsafeCommitStays(w: World, s: Step, submit: Step, card: CardId)
    requires Inv(w) && w.open == map[] && s.Commit? && Possible(w, s) && card in w.cards && Loses(w, s, card)
    requires submit.SubmitDeferred? && submit.id == s.id
    ensures var after := Next(Committed(w, s), submit);
            after.open == map[] && card in after.cards && Lost(after, card)
  {
    var done := Committed(w, s);
    var inv := done.open[s.id];
    StepKeepsStructure(w, s);
    StepKeepsStructure(Next(w, s), DrawOwn(s.id));
    if inv.defers {
      OutOfScopeStays(done.queue, Deferred(inv, submit.origin, submit.holdSeconds, submit.now), card);
    }
  }

  // A refresh adds no card outside its scope to those waiting, unless it clears a skip of it.
  lemma OutOfScopeStays(q: Queue, job: Job, card: CardId)
    requires QueueInv(q) && JobsWellKeyed(q) && job.MeetingRefresh? && !InScope(job.scope, card)
    requires job.Key() in q.inFlight || job.skip == Some(card)
    requires var held := Waiting(q.pending, job.Key()); held.Some? ==> !Draws(held.value, card)
    ensures var after := SubmitTo(q, job).queue;
            var merged := Waiting(after.pending, job.Key());
            after.inFlight == q.inFlight && (merged.Some? ==> !Draws(merged.value, card))
  {
    var cleared := ClearSkipInFlight(q, job);
    var held := Waiting(q.pending, job.Key());
    if held.Some? {
      WaitingMember(q.pending, job.Key());
      PutSets(q.pending, MergeJobs(held.value, cleared));
    } else {
      PutSets(q.pending, cleared);
    }
  }

  // ---- An own draw that another commit has overtaken ----

  predicate Overtaken(w: World, inv: Invocation) {
    && inv.own.Some? && inv.own.value in w.cards && inv.rendered != w.cards[inv.own.value].wanted
    && !PendingDraws(w, inv.own.value) && !FlightDraws(w, inv.own.value)
    && !(inv.defers && InScope(inv.scope, inv.own.value) && SubmitReaches(w, inv, inv.own.value))
  }

  // The last open invocation draws its card and submits: the cards end up to date exactly when the draw
  // was not overtaken, or a refresh waiting, running or its own draws the card again.
  lemma OwnDrawSettlesIff(w: World, id: InvocationId, submit: Step, steps: seq<Step>)
    requires Inv(w) && w.open.Keys == {id} && Possible(w, DrawOwn(id))
    requires submit.SubmitDeferred? && submit.id == id
    requires var done := Next(w, DrawOwn(id));
             && (done.open[id].defers ==> Accepted(done, done.open[id], submit.origin, submit.holdSeconds, submit.now))
             && WorkerRun(Next(done, submit), steps) && AtRest(WorkerEnd(Next(done, submit), steps))
    ensures AllFresh(WorkerEnd(Next(Next(w, DrawOwn(id)), submit), steps)) <==> !Overtaken(w, w.open[id])
  {
    var done := Next(w, DrawOwn(id));
    var own := w.open[id].own.value;
    StepKeepsInvIff(w, DrawOwn(id));
    StepKeepsStructure(done, submit);
    NothingOwed(Without(w, id));
    if Safe(w, DrawOwn(id)) {
      SubmitSettlesIff(done, submit, steps);
      if own in w.cards {
        DebtsSplit(w, id, own);
        assert !Loses(w, DrawOwn(id), own);
        WaitingIsRefresh(w, w.open[id].meeting);
      }
    } else {
      UnsafeOwnDraw(w, id, submit);
      WorkerSettlesIff(Next(done, submit), steps);
    }
  }

  lemma UnsafeOwnDraw(w: World, id: InvocationId, submit: Step)
    requires Inv(w) && w.open.Keys == {id} && Possible(w, DrawOwn(id)) && !Safe(w, DrawOwn(id))
    requires submit.SubmitDeferred? && submit.id == id
    requires var done := Next(w, DrawOwn(id));
             done.open[id].defers ==> Accepted(done, done.open[id], submit.origin, submit.holdSeconds, submit.now)
    ensures Next(Next(w, DrawOwn(id)), submit).open == map[]
    ensures Promise(Next(Next(w, DrawOwn(id)), submit)) <==> !Overtaken(w, w.open[id])
  {
    var done := Next(w, DrawOwn(id));
    var after := Next(done, submit);
    var inv := done.open[id];
    var own := inv.own.value;
    StepKeepsStructure(w, DrawOwn(id));
    assert own in w.cards && Loses(w, DrawOwn(id), own);
    WaitingIsRefresh(w, inv.meeting);
    var job := Deferred(inv, submit.origin, submit.holdSeconds, submit.now);
    SubmitDraws(done.queue, job, own);
    if inv.defers && !InScope(inv.scope, own) {
      OutOfScopeStays(done.queue, job, own);
    }
    NothingOwed(after);
    forall card | card in w.cards && card != own
      ensures !Lost(after, card)
    {
      StepLosesExactly(w, DrawOwn(id), card);
      SubmitLoses(done, submit, card);
    }
  }

  // ---- Stopping ----

  // A stopped queue takes no refresh any more, and holds nothing back.
  lemma StopRefuses(w: World, inv: Invocation, origin: Option<int>, holdSeconds: real, now: real)
    requires AtMostOneInFlight(w.queue)
    ensures var stopped := Next(w, Stop);
            && !Accepted(stopped, inv, origin, holdSeconds, now)
            && stopped.queue.pending == w.queue.pending
            && forall job | job in stopped.queue.pending :: Ready(stopped.queue, job, now)
  {
  }
}
