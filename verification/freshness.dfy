// Whether the cards in the chats end up showing the meeting's latest state: the three separate steps
// of a write-mode invocation (commit, the draw of its own card, the submit of the deferred refresh:
// libs/data/mitup_bot/db.py, libs/telegram/mitup_bot/api_wrapper.py) interleaved with the steps of
// the background worker (libs/telegram/mitup_bot/card_refresh.py).
module Freshness {
  import opened Wrappers
  import opened BackgroundJobs
  import opened RefreshQueues

  // `wanted` counts the committed changes that reach the card and `shown` is the one its chat displays.
  datatype Card = Card(meeting: MeetingId, wanted: nat, shown: nat)

  type InvocationId = nat

  // An invocation between its commit and its submit. `rendered` is the version of its own card's edit,
  // queued inside the transaction; `defers` whether any other card in scope was left to the worker;
  // `sawFlight` whether a job of the meeting was in flight at the commit.
  datatype Invocation = Invocation(
    meeting: MeetingId,
    own: Option<CardId>,
    scope: Scope,
    rendered: nat,
    ownDrawn: bool,
    defers: bool,
    sawFlight: bool)

  // How far the job in flight is: it has not read its meeting yet, or it has and `todo` holds the
  // edits it rendered and has still to send.
  datatype Progress = Unread | Read(todo: map<CardId, nat>)

  datatype World = World(
    cards: map<CardId, Card>,
    open: map<InvocationId, Invocation>,
    queue: Queue,
    progress: Progress)

  datatype Step =
    | Commit(id: InvocationId, meeting: MeetingId, own: Option<CardId>, scope: Scope, affected: set<CardId>)
    | DrawOwn(id: InvocationId)
    | MissOwn(id: InvocationId)
    | SubmitDeferred(id: InvocationId, origin: Option<int>, holdSeconds: real, now: real)
    | SubmitSend(send: Job)
    | TakeJob(now: real)
    | ReadMeeting
    | DrawCard(card: CardId)
    | MissCard(card: CardId)
    | FinishJob
    | FailJob
    | InterruptJob
    | Stop
    | PostCard(card: CardId, meeting: MeetingId, version: nat)
    | DropCard(card: CardId)

  predicate Tracks(w: World, meeting: MeetingId, card: CardId) {
    card in w.cards && w.cards[card].meeting == meeting
  }

  predicate InFlight(w: World, meeting: MeetingId) {
    MeetingKey(meeting) in w.queue.inFlight
  }

  function TheJob(q: Queue): Job
    requires q.inFlight != map[] && AtMostOneInFlight(q)
  {
    var key :| key in q.inFlight;
    q.inFlight[key].job
  }

  function Deferred(inv: Invocation, origin: Option<int>, holdSeconds: real, now: real): Job {
    MeetingRefresh(inv.meeting, inv.own, inv.scope, origin, holdSeconds, 0, 1, now, now)
  }

  // A fan-out that leaves no card behind the current one submits nothing.
  predicate LeavesCards(w: World, meeting: MeetingId, own: Option<CardId>, scope: Scope) {
    exists card | card in w.cards :: w.cards[card].meeting == meeting && own != Some(card) && InScope(scope, card)
  }

  predicate OwnDrawDue(w: World, id: InvocationId) {
    id in w.open && w.open[id].own.Some? && !w.open[id].ownDrawn
  }

  predicate CardDrawDue(w: World, card: CardId) {
    w.queue.inFlight != map[] && w.progress.Read? && card in w.progress.todo
  }

  // What can happen next. Only the worker's order of steps and the callers' arguments constrain it: no
  // caller files a send under a meeting's key. An edit may be lost (`MissOwn`, `MissCard`) without the
  // invocation or the job noticing.
  ghost predicate Possible(w: World, s: Step) {
    match s
    case Commit(id, meeting, own, scope, affected) =>
      && id !in w.open
      && (own.Some? ==> Tracks(w, meeting, own.value))
      && (forall card | card in affected :: Tracks(w, meeting, card) && (InScope(scope, card) || own == Some(card)))
    case DrawOwn(id) => OwnDrawDue(w, id)
    case MissOwn(id) => OwnDrawDue(w, id)
    case SubmitDeferred(id, _, _, _) => id in w.open && (w.open[id].own.Some? ==> w.open[id].ownDrawn)
    case SubmitSend(send) => send.KeyedSend? && send.sendKey.SendKey?
    case TakeJob(_) => w.queue.inFlight == map[]
    case ReadMeeting => w.queue.inFlight != map[] && w.progress.Unread?
    case DrawCard(card) => CardDrawDue(w, card)
    case MissCard(card) => CardDrawDue(w, card)
    case FinishJob => w.queue.inFlight != map[] && w.progress == Read(map[])
    case FailJob => w.queue.inFlight != map[]
    case InterruptJob => w.queue.inFlight != map[]
    case Stop => true
    case PostCard(card, _, _) =>
      && card !in w.cards
      && (w.progress.Read? ==> card !in w.progress.todo)
      && (forall id | id in w.open :: w.open[id].own != Some(card))
    case DropCard(card) => card in w.cards
  }

  function Show(w: World, card: CardId, version: nat): World {
    if card in w.cards then w.(cards := w.cards[card := w.cards[card].(shown := version)]) else w
  }

  function Bump(cards: map<CardId, Card>, affected: set<CardId>): map<CardId, Card> {
    map c | c in cards :: if c in affected then cards[c].(wanted := cards[c].wanted + 1) else cards[c]
  }

  function Snapshot(w: World, job: Job): map<CardId, nat> {
    map c | c in w.cards && Draws(job, c) && w.cards[c].meeting == job.meeting :: w.cards[c].wanted
  }

  function Next(w: World, s: Step): World
    requires Possible(w, s) && AtMostOneInFlight(w.queue)
  {
    match s
    case Commit(id, meeting, own, scope, affected) =>
      var cards := Bump(w.cards, affected);
      var rendered := if own.Some? then cards[own.value].wanted else 0;
      var inv := Invocation(meeting, own, scope, rendered, false, LeavesCards(w, meeting, own, scope),
          InFlight(w, meeting));
      w.(cards := cards, open := w.open[id := inv])
    case DrawOwn(id) =>
      var inv := w.open[id];
      Show(w, inv.own.value, inv.rendered).(open := w.open[id := inv.(ownDrawn := true)])
    case MissOwn(id) => w.(open := w.open[id := w.open[id].(ownDrawn := true)])
    case SubmitDeferred(id, origin, holdSeconds, now) =>
      var inv := w.open[id];
      var queue := if inv.defers then SubmitTo(w.queue, Deferred(inv, origin, holdSeconds, now)).queue else w.queue;
      w.(queue := queue, open := w.open - {id})
    case SubmitSend(send) => w.(queue := SubmitTo(w.queue, send).queue)
    case TakeJob(now) => w.(queue := TakeFrom(w.queue, now), progress := Unread)
    case ReadMeeting => w.(progress := Read(Snapshot(w, TheJob(w.queue))))
    case DrawCard(card) => Show(w, card, w.progress.todo[card]).(progress := Read(w.progress.todo - {card}))
    case MissCard(card) => w.(progress := Read(w.progress.todo - {card}))
    case FinishJob => w.(queue := Settle(w.queue, TheJob(w.queue)), progress := Unread)
    case FailJob => w.(queue := Settle(w.queue, TheJob(w.queue)), progress := Unread)
    case InterruptJob =>
      var job := TheJob(w.queue);
      w.(queue := Settle(RequeueInto(w.queue, job), job), progress := Unread)
    case Stop => w.(queue := w.queue.(accepting := false))
    case PostCard(card, meeting, version) => w.(cards := w.cards[card := Card(meeting, version, version)])
    case DropCard(card) => w.(cards := w.cards - {card})
  }

  // ---- Who will draw a card ----

  predicate Fresh(w: World, card: CardId)
    requires card in w.cards
  {
    w.cards[card].shown == w.cards[card].wanted
  }

  predicate PendingDraws(w: World, card: CardId)
    requires card in w.cards
  {
    var waiting := Waiting(w.queue.pending, MeetingKey(w.cards[card].meeting));
    waiting.Some? && Draws(waiting.value, card)
  }

  // The job in flight will draw the card as it should be: it has still to read the meeting, or it has
  // read the latest change and has still to send the edit.
  predicate FlightDraws(w: World, card: CardId)
    requires card in w.cards
  {
    var key := MeetingKey(w.cards[card].meeting);
    && key in w.queue.inFlight
    && Draws(w.queue.inFlight[key].job, card)
    && (w.progress.Read? ==> card in w.progress.todo && w.progress.todo[card] == w.cards[card].wanted)
  }

  // The refresh the invocation is going to submit draws the card, whatever lands on it until then.
  predicate WillSubmit(inv: Invocation, card: CardId) {
    inv.defers && InScope(inv.scope, card) && (inv.own == Some(card) ==> inv.sawFlight)
  }

  predicate WillShow(inv: Invocation, card: CardId, wanted: nat) {
    inv.own == Some(card) && !inv.ownDrawn && inv.rendered == wanted
  }

  ghost predicate SubmitOwed(w: World, card: CardId)
    requires card in w.cards
  {
    exists id | id in w.open :: w.open[id].meeting == w.cards[card].meeting && WillSubmit(w.open[id], card)
  }

  ghost predicate ShowOwed(w: World, card: CardId)
    requires card in w.cards
  {
    exists id | id in w.open :: WillShow(w.open[id], card, w.cards[card].wanted)
  }

  // The job in flight holds an edit of the card older than `wanted`, which it may still put over a newer.
  predicate OlderEdit(w: World, card: CardId, wanted: nat) {
    w.progress.Read? && card in w.progress.todo && w.progress.todo[card] != wanted
  }

  predicate MayOverwrite(w: World, card: CardId)
    requires card in w.cards
  {
    OlderEdit(w, card, w.cards[card].wanted)
  }

  // No refresh is left to draw the card, and it is stale with nobody about to show the latest, or an
  // older edit of it is still on its way.
  ghost predicate Lost(w: World, card: CardId)
    requires card in w.cards
  {
    && !PendingDraws(w, card) && !SubmitOwed(w, card)
    && (MayOverwrite(w, card) || !(Fresh(w, card) || FlightDraws(w, card) || ShowOwed(w, card)))
  }

  // ---- What a step loses ----

  // A stale card that only the job in flight will draw.
  ghost predicate OnlyInFlight(w: World, card: CardId)
    requires card in w.cards
  {
    FlightDraws(w, card) && !Fresh(w, card) && !PendingDraws(w, card) && !SubmitOwed(w, card) && !ShowOwed(w, card)
  }

  // The world without an invocation, as if it never submitted.
  function Without(w: World, id: InvocationId): World {
    w.(open := w.open - {id})
  }

  // Whether the refresh an invocation submits draws a card it owes: its own only if the skip is cleared,
  // by a job of the meeting in flight or by a waiting refresh that passes over another card.
  predicate SubmitReaches(w: World, inv: Invocation, card: CardId) {
    inv.own == Some(card) ==>
      var waiting := Waiting(w.queue.pending, MeetingKey(inv.meeting));
      InFlight(w, inv.meeting) || (waiting.Some? && waiting.value.MeetingRefresh? && waiting.value.skip != inv.own)
  }

  predicate Accepted(w: World, inv: Invocation, origin: Option<int>, holdSeconds: real, now: real) {
    SubmitTo(w.queue, Deferred(inv, origin, holdSeconds, now)).accepted
  }

  // Which card a step loses, read off the state in front of it:
  // - a commit, its own card when the job in flight has rendered an older state of it and neither its
  //   own refresh nor any other covers it;
  // - an own draw, its card when another commit has overtaken it and nobody else will show that;
  // - an own draw that is lost, its card when nobody else will show the latest;
  // - a submit, what it owes when it is refused, or its own card when the job it counted on has ended;
  // - an edit lost inside a job, a job that fails and an interrupted job that gives way to a waiting one:
  //   a card only that job was about to draw.
  ghost predicate Loses(w: World, s: Step, card: CardId)
    requires Possible(w, s) && AtMostOneInFlight(w.queue) && card in w.cards
  {
    match s
    case Commit(id, meeting, own, scope, affected) =>
      && own == Some(card) && card in affected && OlderEdit(w, card, w.cards[card].wanted + 1)
      && !PendingDraws(w, card) && !SubmitOwed(w, card)
      && !(InScope(scope, card) && LeavesCards(w, meeting, own, scope))
    case DrawOwn(id) =>
      && w.open[id].own == Some(card) && w.open[id].rendered != w.cards[card].wanted
      && !PendingDraws(w, card) && !SubmitOwed(w, card) && !FlightDraws(w, card) && !ShowOwed(w, card)
    case MissOwn(id) =>
      && w.open[id].own == Some(card) && w.open[id].rendered == w.cards[card].wanted
      && !Fresh(w, card) && !PendingDraws(w, card) && !SubmitOwed(w, card) && !FlightDraws(w, card)
      && !ShowOwed(Without(w, id), card)
    case SubmitDeferred(id, origin, holdSeconds, now) =>
      var inv := w.open[id];
      && inv.meeting == w.cards[card].meeting && WillSubmit(inv, card) && Lost(Without(w, id), card)
      && !(Accepted(w, inv, origin, holdSeconds, now) && SubmitReaches(w, inv, card))
    case MissCard(drawn) => card == drawn && OnlyInFlight(w, card)
    case InterruptJob => Waiting(w.queue.pending, TheJob(w.queue).Key()).Some? && OnlyInFlight(w, card)
    case FailJob => OnlyInFlight(w, card)
    case _ => false
  }

  ghost predicate Safe(w: World, s: Step)
    requires Possible(w, s) && AtMostOneInFlight(w.queue)
  {
    forall card | card in w.cards :: !Loses(w, s, card)
  }

  // ---- The invariant ----

  ghost predicate JobsWellKeyed(q: Queue) {
    && (forall i | 0 <= i < |q.pending| :: q.pending[i].Key().MeetingKey? ==> q.pending[i].MeetingRefresh?)
    && (forall key | key in q.inFlight :: key.MeetingKey? ==> q.inFlight[key].job.MeetingRefresh?)
  }

  ghost predicate TodoBelongs(w: World) {
    w.progress.Read? ==>
      && w.queue.inFlight != map[]
      && forall card | card in w.progress.todo && card in w.cards ::
           && MeetingKey(w.cards[card].meeting) in w.queue.inFlight
           && Draws(w.queue.inFlight[MeetingKey(w.cards[card].meeting)].job, card)
  }

  ghost predicate OwnCardsBelong(w: World) {
    forall id | id in w.open ::
      var inv := w.open[id];
      inv.own.Some? && inv.own.value in w.cards ==> w.cards[inv.own.value].meeting == inv.meeting
  }

  ghost predicate Structure(w: World) {
    QueueInv(w.queue) && JobsWellKeyed(w.queue) && TodoBelongs(w) && OwnCardsBelong(w)
  }

  ghost predicate Promise(w: World) {
    forall card | card in w.cards :: !Lost(w, card)
  }

  ghost predicate Inv(w: World) {
    Structure(w) && Promise(w)
  }

  // Nothing waiting, nothing running, no invocation between its commit and its submit.
  predicate AtRest(w: World) {
    w.queue.pending == [] && w.queue.inFlight == map[] && w.open == map[]
  }

  ghost predicate AllFresh(w: World) {
    forall card | card in w.cards :: Fresh(w, card)
  }

  lemma TheJobIs(q: Queue, key: JobKey)
    requires AtMostOneInFlight(q) && key in q.inFlight
    ensures q.inFlight != map[] && TheJob(q) == q.inFlight[key].job && q.inFlight.Keys == {key}
    ensures Settle(q, TheJob(q)).inFlight == map[]
  {
  }

  lemma WaitingMember(pending: seq<Job>, key: JobKey)
    requires Waiting(pending, key).Some?
    ensures Waiting(pending, key).value in pending && Waiting(pending, key).value.Key() == key
  {
  }

  // ---- What the queue's transitions do to the draws ----

  // What a submitted refresh adds to the draws of the job waiting for its meeting.
  lemma SubmitDraws(q: Queue, job: Job, card: CardId)
    requires QueueInv(q) && JobsWellKeyed(q) && job.MeetingRefresh?
    ensures var after := SubmitTo(q, job).queue;
            var held, merged := Waiting(q.pending, job.Key()), Waiting(after.pending, job.Key());
            && JobsWellKeyed(after)
            && (forall other | other != job.Key() :: Waiting(after.pending, other) == Waiting(q.pending, other))
            && (held.Some? && Draws(held.value, card) ==> merged.Some? && Draws(merged.value, card))
            && (!SubmitTo(q, job).accepted ==> merged == held)
            && (SubmitTo(q, job).accepted && InScope(job.scope, card) ==>
                  && merged.Some?
                  && (Draws(merged.value, card) <==>
                        || job.skip != Some(card) || job.Key() in q.inFlight
                        || (held.Some? && held.value.skip != Some(card))))
  {
    var cleared := ClearSkipInFlight(q, job);
    var held := Waiting(q.pending, job.Key());
    if held.Some? {
      WaitingMember(q.pending, job.Key());
      assert held.value.MeetingRefresh?;
      PutSets(q.pending, MergeJobs(held.value, cleared));
      if Draws(held.value, card) || Draws(cleared, card) {
        MergeDrawsBoth(held.value, cleared, card);
      }
    } else {
      PutSets(q.pending, cleared);
    }
  }

  lemma SendDrawsAlike(q: Queue, send: Job)
    requires QueueInv(q) && JobsWellKeyed(q) && send.KeyedSend? && send.sendKey.SendKey?
    ensures var after := SubmitTo(q, send).queue;
            && QueueInv(after) && JobsWellKeyed(after) && after.inFlight == q.inFlight
            && (forall meeting ::
                Waiting(after.pending, MeetingKey(meeting)) == Waiting(q.pending, MeetingKey(meeting)))
  {
    SubmitKeepsQueueInv(q, send);
    var held := Waiting(q.pending, send.Key());
    if held.Some? {
      PutSets(q.pending, MergeJobs(held.value, send));
    } else {
      PutSets(q.pending, send);
    }
  }

  // An interrupted job is put back whole, or gives way to the one waiting under its key.
  lemma RequeueDraws(q: Queue, key: JobKey, card: CardId)
    requires QueueInv(q) && JobsWellKeyed(q) && key in q.inFlight
    ensures var job := q.inFlight[key].job;
            var after := Settle(RequeueInto(q, job), job);
            var held, left := Waiting(q.pending, key), Waiting(after.pending, key);
            && QueueInv(after) && JobsWellKeyed(after) && after.inFlight == map[]
            && (forall other | other != key :: Waiting(after.pending, other) == Waiting(q.pending, other))
            && (held.Some? ==> left == held)
            && (held.None? ==> left.Some? && (Draws(left.value, card) <==> Draws(job, card)))
  {
    var job := q.inFlight[key].job;
    TheJobIs(q, key);
    RequeueKeepsQueueInv(q, key);
    if Waiting(q.pending, key).Some? {
      WaitingMember(q.pending, key);
    } else {
      PutSets(q.pending, job.(attempt := job.attempt + 1));
    }
  }

  // Taking moves a job from waiting to in flight.
  lemma TakeMoves(q: Queue, now: real)
    requires QueueInv(q) && JobsWellKeyed(q) && q.inFlight == map[]
    ensures var i, after := FirstReady(q, now), TakeFrom(q, now);
            && QueueInv(after) && JobsWellKeyed(after)
            && (i == |q.pending| ==> after == q)
            && (i < |q.pending| ==>
                  var job := q.pending[i];
                  && after.inFlight == map[job.Key() := RunningJob(job, now)]
                  && Waiting(q.pending, job.Key()) == Some(job) && Waiting(after.pending, job.Key()).None?
                  && (forall other | other != job.Key() :: Waiting(after.pending, other) == Waiting(q.pending, other)))
  {
    TakeKeepsQueueInv(q, now);
    var i := FirstReady(q, now);
    if i < |q.pending| {
      RemoveClears(q.pending, i);
      WaitingIs(q.pending, i);
    }
  }

  // ---- Every step keeps the structure ----

  lemma StepKeepsStructure(w: World, s: Step)
    requires Structure(w) && Possible(w, s)
    ensures Structure(Next(w, s))
  {
    match s
    case Commit(_, _, _, _, _) =>
    case DrawOwn(_) =>
    case MissOwn(_) =>
    case SubmitDeferred(_, _, _, _) => QueueStepKeepsStructure(w, s);
    case SubmitSend(_) => QueueStepKeepsStructure(w, s);
    case TakeJob(_) => QueueStepKeepsStructure(w, s);
    case ReadMeeting =>
      var key :| key in w.queue.inFlight;
      TheJobIs(w.queue, key);
    case DrawCard(_) =>
    case MissCard(_) =>
    case FinishJob => JobEnds(w);
    case FailJob => JobEnds(w);
    case InterruptJob => QueueStepKeepsStructure(w, s);
    case Stop =>
    case PostCard(_, _, _) =>
    case DropCard(_) =>
  }

  lemma QueueStepKeepsStructure(w: World, s: Step)
    requires Structure(w) && (s.SubmitDeferred? || s.SubmitSend? || s.TakeJob? || s.InterruptJob?) && Possible(w, s)
    ensures Structure(Next(w, s))
  {
    match s
    case SubmitDeferred(id, origin, holdSeconds, now) =>
      var job := Deferred(w.open[id], origin, holdSeconds, now);
      SubmitKeepsQueueInv(w.queue, job);
      SubmitDraws(w.queue, job, 0);
    case SubmitSend(send) => SendDrawsAlike(w.queue, send);
    case TakeJob(now) => TakeMoves(w.queue, now);
    case InterruptJob =>
      var key :| key in w.queue.inFlight;
      TheJobIs(w.queue, key);
      RequeueDraws(w.queue, key, 0);
  }

  lemma JobEnds(w: World)
    requires Structure(w) && w.queue.inFlight != map[]
    ensures var after := Settle(w.queue, TheJob(w.queue));
            QueueInv(after) && JobsWellKeyed(after) && after.inFlight == map[] && after.pending == w.queue.pending
  {
    var key :| key in w.queue.inFlight;
    TheJobIs(w.queue, key);
  }

  // ---- A step loses exactly the cards `Loses` says ----

  // A step that leaves the invocations alone keeps what they owe a card it does not change.
  lemma DebtsUnchanged(w: World, after: World, card: CardId)
    requires after.open == w.open && card in w.cards && card in after.cards
    requires after.cards[card].meeting == w.cards[card].meeting && after.cards[card].wanted == w.cards[card].wanted
    ensures SubmitOwed(after, card) <==> SubmitOwed(w, card)
    ensures ShowOwed(after, card) <==> ShowOwed(w, card)
  {
  }

  // What one invocation owes stands apart from what the others do.
  lemma DebtsSplit(w: World, id: InvocationId, card: CardId)
    requires id in w.open && card in w.cards
    ensures SubmitOwed(w, card) <==>
              SubmitOwed(Without(w, id), card)
                  || (w.open[id].meeting == w.cards[card].meeting && WillSubmit(w.open[id], card))
    ensures ShowOwed(w, card) <==> ShowOwed(Without(w, id), card) || WillShow(w.open[id], card, w.cards[card].wanted)
  {
    var rest := Without(w, id);
    if SubmitOwed(w, card) {
      var other :| other in w.open && w.open[other].meeting == w.cards[card].meeting && WillSubmit(w.open[other], card);
      assert other != id ==> rest.open[other] == w.open[other];
    }
    if ShowOwed(w, card) {
      var other :| other in w.open && WillShow(w.open[other], card, w.cards[card].wanted);
      assert other != id ==> rest.open[other] == w.open[other];
    }
  }

  lemma CommitLoses(w: World, s: Step, card: CardId)
    requires Inv(w) && s.Commit? && Possible(w, s) && card in w.cards
    ensures Lost(Next(w, s), card) <==> Loses(w, s, card)
  {
    var after := Next(w, s);
    DebtsSplit(after, s.id, card);
    assert after.open - {s.id} == w.open;
    if card !in s.affected {
      DebtsUnchanged(w, Without(after, s.id), card);
    }
  }

  lemma OwnDrawLoses(w: World, s: Step, card: CardId)
    requires Inv(w) && (s.DrawOwn? || s.MissOwn?) && Possible(w, s) && card in w.cards
    ensures Lost(Next(w, s), card) <==> Loses(w, s, card)
  {
    var after := Next(w, s);
    DebtsSplit(w, s.id, card);
    DebtsSplit(after, s.id, card);
    assert after.open - {s.id} == w.open - {s.id};
    DebtsUnchanged(Without(w, s.id), Without(after, s.id), card);
  }

  lemma SubmitLoses(w: World, s: Step, card: CardId)
    requires Structure(w) && s.SubmitDeferred? && Possible(w, s) && card in w.cards && !Lost(w, card)
    ensures Lost(Next(w, s), card) <==> Loses(w, s, card)
  {
    var after := Next(w, s);
    var inv := w.open[s.id];
    DebtsSplit(w, s.id, card);
    DebtsUnchanged(Without(w, s.id), after, card);
    SubmitDraws(w.queue, Deferred(inv, s.origin, s.holdSeconds, s.now), card);
    var waiting := Waiting(w.queue.pending, MeetingKey(inv.meeting));
    if waiting.Some? {
      WaitingMember(w.queue.pending, MeetingKey(inv.meeting));
    }
  }

  lemma WorkerStartLoses(w: World, s: Step, card: CardId)
    requires Inv(w) && (s.TakeJob? || s.ReadMeeting?) && Possible(w, s) && card in w.cards
    ensures !Lost(Next(w, s), card)
  {
    var after := Next(w, s);
    DebtsUnchanged(w, after, card);
    if s.TakeJob? {
      TakeMoves(w.queue, s.now);
    } else {
      var key :| key in w.queue.inFlight;
      TheJobIs(w.queue, key);
    }
  }

  lemma CardDrawLoses(w: World, s: Step, card: CardId)
    requires Inv(w) && (s.DrawCard? || s.MissCard?) && Possible(w, s) && card in w.cards
    ensures Lost(Next(w, s), card) <==> Loses(w, s, card)
  {
    DebtsUnchanged(w, Next(w, s), card);
  }

  lemma JobEndLoses(w: World, s: Step, card: CardId)
    requires Inv(w) && (s.FinishJob? || s.FailJob? || s.InterruptJob?) && Possible(w, s) && card in w.cards
    ensures Lost(Next(w, s), card) <==> Loses(w, s, card)
  {
    DebtsUnchanged(w, Next(w, s), card);
    var key :| key in w.queue.inFlight;
    TheJobIs(w.queue, key);
    if s.InterruptJob? {
      RequeueDraws(w.queue, key, card);
    }
  }

  lemma OtherStepLoses(w: World, s: Step, card: CardId)
    requires Inv(w) && (s.SubmitSend? || s.Stop? || s.PostCard? || s.DropCard?) && Possible(w, s)
    requires card in Next(w, s).cards
    ensures !Lost(Next(w, s), card)
  {
    if s.SubmitSend? {
      SendDrawsAlike(w.queue, s.send);
    }
    if card in w.cards {
      DebtsUnchanged(w, Next(w, s), card);
    }
  }

  lemma StepLosesExactly(w: World, s: Step, card: CardId)
    requires Inv(w) && Possible(w, s) && card in Next(w, s).cards
    ensures Lost(Next(w, s), card) <==> card in w.cards && Loses(w, s, card)
  {
    match s
    case Commit(_, _, _, _, _) => CommitLoses(w, s, card);
    case DrawOwn(_) => OwnDrawLoses(w, s, card);
    case MissOwn(_) => OwnDrawLoses(w, s, card);
    case SubmitDeferred(_, _, _, _) => SubmitLoses(w, s, card);
    case TakeJob(_) => WorkerStartLoses(w, s, card);
    case ReadMeeting => WorkerStartLoses(w, s, card);
    case DrawCard(_) => CardDrawLoses(w, s, card);
    case MissCard(_) => CardDrawLoses(w, s, card);
    case FinishJob => JobEndLoses(w, s, card);
    case FailJob => JobEndLoses(w, s, card);
    case InterruptJob => JobEndLoses(w, s, card);
    case SubmitSend(_) => OtherStepLoses(w, s, card);
    case Stop => OtherStepLoses(w, s, card);
    case PostCard(_, _, _) => OtherStepLoses(w, s, card);
    case DropCard(_) => OtherStepLoses(w, s, card);
  }

  // A step keeps every card in somebody's hands exactly when it is safe.
  lemma StepKeepsInvIff(w: World, s: Step)
    requires Inv(w) && Possible(w, s)
    ensures Structure(Next(w, s))
    ensures Inv(Next(w, s)) <==> Safe(w, s)
  {
    StepKeepsStructure(w, s);
    var after := Next(w, s);
    forall card | card in after.cards
      ensures Lost(after, card) <==> card in w.cards && Loses(w, s, card)
    {
      StepLosesExactly(w, s, card);
    }
    forall card | card in w.cards && Loses(w, s, card)
      ensures card in after.cards
    {
    }
  }

  // ---- Whole runs ----

  ghost predicate SafeRun(w: World, steps: seq<Step>)
    decreases |steps|
  {
    steps == []
    || (AtMostOneInFlight(w.queue) && Possible(w, steps[0]) && Safe(w, steps[0])
        && SafeRun(Next(w, steps[0]), steps[1..]))
  }

  ghost function After(w: World, steps: seq<Step>): World
    requires SafeRun(w, steps)
    decreases |steps|
  {
    if steps == [] then w else After(Next(w, steps[0]), steps[1..])
  }

  lemma {:induction false} SafeRunKeepsInv(w: World, steps: seq<Step>)
    requires Inv(w) && SafeRun(w, steps)
    ensures Inv(After(w, steps))
    decreases |steps|
  {
    if steps != [] {
      StepKeepsInvIff(w, steps[0]);
      SafeRunKeepsInv(Next(w, steps[0]), steps[1..]);
    }
  }

  ghost predicate StartsFresh(w: World) {
    AtRest(w) && w.progress.Unread? && AllFresh(w)
  }

  // The queue always ends on the latest state: whatever the interleaving, a run of safe steps that
  // comes to rest leaves every card showing the last change that reaches it; until then no card is lost.
  lemma FreshAtRest(w: World, steps: seq<Step>)
    requires StartsFresh(w) && SafeRun(w, steps)
    ensures var after := After(w, steps); Promise(after) && (AtRest(after) ==> AllFresh(after))
  {
    assert Inv(w);
    SafeRunKeepsInv(w, steps);
  }
}
