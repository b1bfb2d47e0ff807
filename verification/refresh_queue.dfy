// The coalescing queue of background jobs (libs/telegram/mitup_bot/card_refresh.py). `Queue` is its
// state as a value with the transition each operation makes; `RefreshQueue` is the mutable object,
// whose methods are proved to make exactly those transitions.
module RefreshQueues {
  import opened Wrappers
  import opened BackgroundJobs

  datatype RunningJob = RunningJob(job: Job, started: real)

  // `pending` is a dictionary in insertion order: at most one job per key, and assigning to a key
  // already present keeps its place.
  datatype Queue = Queue(
    pending: seq<Job>,
    inFlight: map<JobKey, RunningJob>,
    accepting: bool,
    maxPending: nat)

  // ---- The ordered dictionary ----

  // The place of `key` in `pending`, or |pending| when it is absent.
  function IndexOf(pending: seq<Job>, key: JobKey): (i: nat)
    ensures i <= |pending|
    ensures i < |pending| ==> pending[i].Key() == key
    ensures forall j | 0 <= j < i :: pending[j].Key() != key
  {
    if pending == [] || pending[0].Key() == key then 0 else 1 + IndexOf(pending[1..], key)
  }

  function Waiting(pending: seq<Job>, key: JobKey): Option<Job> {
    var i := IndexOf(pending, key);
    if i < |pending| then Some(pending[i]) else None
  }

  function Put(pending: seq<Job>, job: Job): seq<Job> {
    var i := IndexOf(pending, job.Key());
    if i < |pending| then pending[i := job] else pending + [job]
  }

  function RemoveAt(pending: seq<Job>, i: nat): seq<Job>
    requires i < |pending|
  {
    pending[..i] + pending[i + 1..]
  }

  ghost predicate UniqueKeys(pending: seq<Job>) {
    forall i, j | 0 <= i < j < |pending| :: pending[i].Key() != pending[j].Key()
  }

  lemma WaitingIs(pending: seq<Job>, i: nat)
    requires UniqueKeys(pending) && i < |pending|
    ensures Waiting(pending, pending[i].Key()) == Some(pending[i])
  {
    var j := IndexOf(pending, pending[i].Key());
    assert j <= i;
  }

  lemma WaitingAbsent(pending: seq<Job>, key: JobKey)
    ensures Waiting(pending, key).None? <==> forall i | 0 <= i < |pending| :: pending[i].Key() != key
  {
  }

  predicate HasKey(pending: seq<Job>, key: JobKey) {
    exists i | 0 <= i < |pending| :: pending[i].Key() == key
  }

  lemma PutHasKey(pending: seq<Job>, job: Job)
    ensures HasKey(pending, job.Key()) <==> Waiting(pending, job.Key()).Some?
    ensures HasKey(Put(pending, job), job.Key())
  {
    var i := IndexOf(pending, job.Key());
    WaitingAbsent(pending, job.Key());
    assert Put(pending, job)[i] == job;
  }

  lemma PutSets(pending: seq<Job>, job: Job)
    requires UniqueKeys(pending)
    ensures UniqueKeys(Put(pending, job))
    ensures forall key ::
              Waiting(Put(pending, job), key) == if key == job.Key() then Some(job) else Waiting(pending, key)
    ensures |Put(pending, job)| == |pending| + if Waiting(pending, job.Key()).None? then 1 else 0
  {
    var after := Put(pending, job);
    var i := IndexOf(pending, job.Key());
    assert UniqueKeys(after);
    forall key
      ensures Waiting(after, key) == if key == job.Key() then Some(job) else Waiting(pending, key)
    {
      if key == job.Key() {
        assert after[i] == job;
        WaitingIs(after, i);
      } else {
        var j := IndexOf(pending, key);
        if j < |pending| {
          assert after[j] == pending[j];
          WaitingIs(after, j);
        } else {
          WaitingAbsent(pending, key);
          WaitingAbsent(after, key);
        }
      }
    }
  }

  lemma RemoveClears(pending: seq<Job>, i: nat)
    requires UniqueKeys(pending) && i < |pending|
    ensures UniqueKeys(RemoveAt(pending, i))
    ensures forall key ::
              Waiting(RemoveAt(pending, i), key) == if key == pending[i].Key() then None else Waiting(pending, key)
  {
    var after := RemoveAt(pending, i);
    assert forall j | 0 <= j < |after| :: after[j] == if j < i then pending[j] else pending[j + 1];
    forall key
      ensures Waiting(after, key) == if key == pending[i].Key() then None else Waiting(pending, key)
    {
      var j := IndexOf(pending, key);
      if key == pending[i].Key() || j == |pending| {
        WaitingAbsent(after, key);
        WaitingAbsent(pending, key);
      } else {
        var k := if j < i then j else j - 1;
        assert after[k] == pending[j];
        WaitingIs(after, k);
      }
    }
  }

  // ---- The transitions ----

  datatype Submission = Submission(queue: Queue, accepted: bool)

  // A refresh submitted while its meeting is being drawn may pass over no card: the running job may
  // still put a stale render over the one the submitter drew.
  function ClearSkipInFlight(q: Queue, job: Job): Job {
    if job.MeetingRefresh? && job.Key() in q.inFlight then job.(skip := None) else job
  }

  // Only a refresh of the meeting being drawn loses its skip, and nothing else of it.
  lemma SkipClearedOnlyInFlight(q: Queue, job: Job)
    ensures !(job.MeetingRefresh? && job.Key() in q.inFlight) ==> ClearSkipInFlight(q, job) == job
    ensures job.MeetingRefresh? && job.Key() in q.inFlight ==>
              && ClearSkipInFlight(q, job).skip.None?
              && forall skip :: ClearSkipInFlight(q, job.(skip := skip)) == job.(skip := None)
  {
  }

  function SubmitTo(q: Queue, submitted: Job): Submission {
    if !q.accepting then Submission(q, false)
    else
      var job := ClearSkipInFlight(q, submitted);
      match Waiting(q.pending, job.Key())
      case Some(waiting) => Submission(q.(pending := Put(q.pending, MergeJobs(waiting, job))), true)
      case None =>
        if |q.pending| >= q.maxPending then Submission(q, false)
        else Submission(q.(pending := Put(q.pending, job)), true)
  }

  function MaxReal(a: real, b: real): real {
    if a >= b then a else b
  }

  function MinReal(a: real, b: real): real {
    if a <= b then a else b
  }

  function SecondsUntilReady(accepting: bool, job: Job, now: real): real {
    if !accepting then 0.0 else MaxReal(0.0, job.holdSince + job.holdSeconds - now)
  }

  // Seconds until the first of `pending` may be taken, or None when nothing is waiting.
  function NextReadyIn(pending: seq<Job>, accepting: bool, now: real): (delay: Option<real>)
    ensures delay.None? <==> pending == []
    ensures delay.Some? ==> forall job | job in pending :: delay.value <= SecondsUntilReady(accepting, job, now)
    ensures delay.Some? ==> exists job | job in pending :: delay.value == SecondsUntilReady(accepting, job, now)
  {
    if pending == [] then None
    else
      var first := SecondsUntilReady(accepting, pending[0], now);
      match NextReadyIn(pending[1..], accepting, now)
      case None => Some(first)
      case Some(rest) => Some(MinReal(first, rest))
  }

  predicate Ready(q: Queue, job: Job, now: real) {
    SecondsUntilReady(q.accepting, job, now) == 0.0
  }

  // A job is ready once its hold is over, or at once on a queue that is stopping.
  lemma ReadyMeansHoldOver(q: Queue, job: Job, now: real)
    ensures Ready(q, job, now) <==> !q.accepting || job.holdSince + job.holdSeconds <= now
    ensures q.accepting && !Ready(q, job, now) ==>
              SecondsUntilReady(q.accepting, job, now) == job.holdSince + job.holdSeconds - now
  {
  }

  // The oldest job whose hold has run out, or |pending| when there is none.
  function FirstReady(q: Queue, now: real): (i: nat)
    ensures i <= |q.pending|
    ensures i < |q.pending| ==> Ready(q, q.pending[i], now)
    ensures forall j | 0 <= j < i :: !Ready(q, q.pending[j], now)
    decreases |q.pending|
  {
    if q.pending == [] || Ready(q, q.pending[0], now) then 0
    else
      var rest := q.(pending := q.pending[1..]);
      assert forall j | 0 <= j < |rest.pending| :: rest.pending[j] == q.pending[j + 1];
      1 + FirstReady(rest, now)
  }

  function TakeFrom(q: Queue, now: real): Queue {
    var i := FirstReady(q, now);
    if i == |q.pending| then q
    else
      var job := q.pending[i];
      q.(pending := RemoveAt(q.pending, i), inFlight := q.inFlight[job.Key() := RunningJob(job, now)])
  }

  // `setdefault`: a job submitted under the same key meanwhile is left alone.
  function RequeueInto(q: Queue, job: Job): Queue {
    if Waiting(q.pending, job.Key()).Some? then q
    else q.(pending := Put(q.pending, job.(attempt := job.attempt + 1)))
  }

  function Settle(q: Queue, job: Job): Queue {
    q.(inFlight := q.inFlight - {job.Key()})
  }

  // ---- A burst of submits ----

  function SubmitAll(q: Queue, jobs: seq<Job>): Queue {
    if jobs == [] then q else SubmitTo(SubmitAll(q, jobs[..|jobs| - 1]), jobs[|jobs| - 1]).queue
  }

  function ClearAll(q: Queue, jobs: seq<Job>): (cleared: seq<Job>)
    ensures |cleared| == |jobs|
    ensures forall i | 0 <= i < |jobs| :: cleared[i] == ClearSkipInFlight(q, jobs[i])
  {
    seq(|jobs|, i requires 0 <= i < |jobs| => ClearSkipInFlight(q, jobs[i]))
  }

  // One job is left waiting for all of `jobs`, it is their merge, and no other key notices.
  ghost predicate MergedUnder(q: Queue, key: JobKey, jobs: seq<Job>, after: Queue)
    requires jobs != []
  {
    var cleared := ClearAll(q, jobs);
    && UniqueKeys(after.pending)
    && after.accepting && after.inFlight == q.inFlight && after.maxPending == q.maxPending
    && |after.pending| == |q.pending| + 1
    && Waiting(after.pending, key) == Some(MergeAll(cleared[0], cleared[1..]))
    && (forall other | other != key :: Waiting(after.pending, other) == Waiting(q.pending, other))
  }

  // Every submit of a burst under one free key is accepted and merged.
  lemma {:induction false} BurstLeavesOneMergedJob(q: Queue, key: JobKey, jobs: seq<Job>)
    requires UniqueKeys(q.pending) && q.accepting && |q.pending| < q.maxPending
    requires Waiting(q.pending, key).None?
    requires jobs != [] && forall i | 0 <= i < |jobs| :: jobs[i].Key() == key
    ensures MergedUnder(q, key, jobs, SubmitAll(q, jobs))
    ensures SubmitTo(SubmitAll(q, jobs[..|jobs| - 1]), jobs[|jobs| - 1]).accepted
  {
    var n := |jobs| - 1;
    if n == 0 {
      assert jobs[..0] == [];
      assert SubmitAll(q, jobs[..0]) == q;
      PutSets(q.pending, ClearAll(q, jobs)[0]);
    } else {
      BurstLeavesOneMergedJob(q, key, jobs[..n]);
      BurstGoesOn(q, key, jobs, SubmitAll(q, jobs[..n]));
    }
  }

  lemma BurstGoesOn(q: Queue, key: JobKey, jobs: seq<Job>, held: Queue)
    requires |jobs| > 1 && forall i | 0 <= i < |jobs| :: jobs[i].Key() == key
    requires MergedUnder(q, key, jobs[..|jobs| - 1], held)
    ensures SubmitTo(held, jobs[|jobs| - 1]).accepted
    ensures MergedUnder(q, key, jobs, SubmitTo(held, jobs[|jobs| - 1]).queue)
  {
    var n := |jobs| - 1;
    var cleared := ClearAll(q, jobs);
    assert ClearAll(q, jobs[..n]) == cleared[..n];
    assert cleared[1..][..n - 1] == cleared[..n][1..];
    var merged := MergeAll(cleared[0], cleared[1..n]);
    assert Waiting(held.pending, key) == Some(merged);
    SubmitMerges(held, merged, jobs[n]);
  }

  // A submit under a waiting key replaces the job by the merge of the two.
  lemma SubmitMerges(q: Queue, held: Job, job: Job)
    requires UniqueKeys(q.pending) && q.accepting && Waiting(q.pending, job.Key()) == Some(held)
        && held.Key() == job.Key()
    ensures var after := SubmitTo(q, job).queue;
            && SubmitTo(q, job).accepted && UniqueKeys(after.pending)
            && after == q.(pending := after.pending) && |after.pending| == |q.pending|
            && Waiting(after.pending, job.Key()) == Some(MergeJobs(held, ClearSkipInFlight(q, job)))
            && (forall other | other != job.Key() :: Waiting(after.pending, other) == Waiting(q.pending, other))
  {
    MergeKeepsKey(held, ClearSkipInFlight(q, job));
    PutSets(q.pending, MergeJobs(held, ClearSkipInFlight(q, job)));
  }

  // ---- The worker as a state machine ----

  // What became of the accepted submits: `retired` counts those behind a job that ended, `superseded`
  // those behind an interrupted job that found its key taken when it was put back.
  datatype Tally = Tally(accepted: nat, retired: nat, superseded: nat)

  // Where the drain loop stands: awake, or asleep with the deadline of its wait (None: no timeout).
  datatype Loop = Awake | Asleep(deadline: Option<real>)

  datatype Worker = Worker(queue: Queue, workAvailable: bool, sleeping: Loop, tally: Tally)

  datatype Event =
    | Submitted(job: Job)
    | FellAsleep(now: real)
    | WokeUp(now: real)
    | Unwound
    | Took(now: real)
    | Finished(key: JobKey)
    | Cancelled(key: JobKey)
    | Stopped

  function Weight(job: Job): nat {
    job.coalesced + 1
  }

  function PendingWeight(pending: seq<Job>): nat {
    if pending == [] then 0 else PendingWeight(pending[..|pending| - 1]) + Weight(pending[|pending| - 1])
  }

  // The wait of `await_ready_job` times out when the first hold runs out.
  function Deadline(q: Queue, now: real): Option<real> {
    match NextReadyIn(q.pending, q.accepting, now)
    case None => None
    case Some(delay) => Some(now + delay)
  }

  predicate WakeEnabled(w: Worker, now: real) {
    w.sleeping.Asleep? && (w.workAvailable || (w.sleeping.deadline.Some? && w.sleeping.deadline.value <= now))
  }

  // One task takes and runs jobs, so nothing is taken while a job is in flight. A stop cancels that task
  // wherever it waits: `Unwound` in its sleep, `Cancelled` inside a job. The queue stops accepting once the
  // task has unwound.
  predicate Enabled(w: Worker, e: Event) {
    match e
    case Submitted(job) => job.coalesced == 0
    case FellAsleep(now) =>
      w.sleeping.Awake? && w.queue.inFlight == map[]
          && NextReadyIn(w.queue.pending, w.queue.accepting, now) != Some(0.0)
    case WokeUp(now) => WakeEnabled(w, now)
    case Unwound => w.sleeping.Asleep?
    case Took(now) => w.sleeping.Awake? && w.queue.inFlight == map[]
    case Finished(key) => key in w.queue.inFlight
    case Cancelled(key) => key in w.queue.inFlight
    case Stopped => w.sleeping.Awake?
  }

  function Step(w: Worker, e: Event): Worker
    requires Enabled(w, e)
  {
    match e
    case Submitted(job) =>
      var s := SubmitTo(w.queue, job);
      w.(queue := s.queue,
         workAvailable := w.workAvailable || s.accepted,
         tally := if s.accepted then w.tally.(accepted := w.tally.accepted + 1) else w.tally)
    case FellAsleep(now) => w.(workAvailable := false, sleeping := Asleep(Deadline(w.queue, now)))
    case WokeUp(now) => w.(sleeping := Awake)
    case Unwound => w.(sleeping := Awake)
    case Took(now) => w.(queue := TakeFrom(w.queue, now))
    case Finished(key) =>
      var job := w.queue.inFlight[key].job;
      w.(queue := Settle(w.queue, job), tally := w.tally.(retired := w.tally.retired + Weight(job)))
    case Cancelled(key) =>
      var job := w.queue.inFlight[key].job;
      var lost := if Waiting(w.queue.pending, job.Key()).Some? then Weight(job) else 0;
      w.(queue := Settle(RequeueInto(w.queue, job), job),
         workAvailable := true,
         tally := w.tally.(superseded := w.tally.superseded + lost))
    case Stopped => w.(queue := w.queue.(accepting := false))
  }

  ghost predicate RunEnabled(w: Worker, events: seq<Event>)
    decreases |events|
  {
    events == [] || (Enabled(w, events[0]) && RunEnabled(Step(w, events[0]), events[1..]))
  }

  ghost function Run(w: Worker, events: seq<Event>): Worker
    requires RunEnabled(w, events)
    decreases |events|
  {
    if events == [] then w else Run(Step(w, events[0]), events[1..])
  }

  function Idle(maxPending: nat): Worker {
    Worker(Queue([], map[], true, maxPending), false, Awake, Tally(0, 0, 0))
  }

  ghost predicate AtMostOneInFlight(q: Queue) {
    && (forall k | k in q.inFlight :: q.inFlight[k].job.Key() == k)
    && (forall k, k' | k in q.inFlight && k' in q.inFlight :: k == k')
  }

  function InFlightCount(q: Queue): nat {
    if q.inFlight == map[] then 0 else 1
  }

  // No pending job of a meeting being drawn passes over a card.
  ghost predicate NoSkipWhileInFlight(q: Queue) {
    forall key | key in q.inFlight ::
      var waiting := Waiting(q.pending, key);
      waiting.Some? && waiting.value.MeetingRefresh? ==> waiting.value.skip.None?
  }

  ghost predicate QueueInv(q: Queue) {
    && UniqueKeys(q.pending)
    && AtMostOneInFlight(q)
    && |q.pending| + InFlightCount(q) <= q.maxPending + 1
    && NoSkipWhileInFlight(q)
  }

  ghost predicate Conserved(w: Worker) {
    w.tally.accepted
    == w.tally.retired + w.tally.superseded + PendingWeight(w.queue.pending)
       + (if w.queue.inFlight == map[] then 0 else InFlightWeight(w.queue))
  }

  ghost function InFlightWeight(q: Queue): nat
    requires q.inFlight != map[]
  {
    var key :| key in q.inFlight;
    Weight(q.inFlight[key].job)
  }

  // No lost wakeup: whatever is waiting, a sleeping loop has been told about it or will look again no
  // later than the moment its hold runs out.
  ghost predicate WillLookInTime(w: Worker) {
    w.sleeping.Asleep? && !w.workAvailable ==>
      forall job | job in w.queue.pending ::
        w.sleeping.deadline.Some? && w.sleeping.deadline.value <= job.holdSince + job.holdSeconds
  }

  ghost predicate WorkerInv(w: Worker) {
    && QueueInv(w.queue)
    && Conserved(w)
    && WillLookInTime(w)
    && (w.sleeping.Asleep? ==> w.queue.inFlight == map[] && (w.queue.accepting || w.queue.pending == []))
  }

  lemma PendingWeightPut(pending: seq<Job>, job: Job)
    ensures var i := IndexOf(pending, job.Key());
            PendingWeight(Put(pending, job))
            == PendingWeight(pending) + Weight(job) - (if i < |pending| then Weight(pending[i]) else 0)
  {
    var i := IndexOf(pending, job.Key());
    if i < |pending| {
      PendingWeightUpdate(pending, i, job);
    } else {
      assert (pending + [job])[..|pending|] == pending;
    }
  }

  lemma {:induction false} PendingWeightUpdate(pending: seq<Job>, i: nat, job: Job)
    requires i < |pending|
    ensures PendingWeight(pending[i := job]) == PendingWeight(pending) + Weight(job) - Weight(pending[i])
  {
    var n := |pending| - 1;
    if i < n {
      PendingWeightUpdate(pending[..n], i, job);
      assert pending[i := job][..n] == pending[..n][i := job];
    } else {
      assert pending[i := job][..n] == pending[..n];
    }
  }

  lemma {:induction false} PendingWeightRemove(pending: seq<Job>, i: nat)
    requires i < |pending|
    ensures PendingWeight(RemoveAt(pending, i)) == PendingWeight(pending) - Weight(pending[i])
  {
    var n := |pending| - 1;
    if i == n {
      assert RemoveAt(pending, i) == pending[..n];
    } else {
      PendingWeightRemove(pending[..n], i);
      assert RemoveAt(pending, i)[..n - 1] == RemoveAt(pending[..n], i);
    }
  }

  lemma InFlightWeightIs(q: Queue, key: JobKey)
    requires AtMostOneInFlight(q) && key in q.inFlight
    ensures q.inFlight != map[] && InFlightWeight(q) == Weight(q.inFlight[key].job)
  {
  }

  lemma SubmitKeepsQueueInv(q: Queue, job: Job)
    requires QueueInv(q)
    ensures QueueInv(SubmitTo(q, job).queue)
  {
    var cleared := ClearSkipInFlight(q, job);
    var waiting := Waiting(q.pending, cleared.Key());
    if waiting.Some? {
      MergeKeepsKey(waiting.value, cleared);
      PutSets(q.pending, MergeJobs(waiting.value, cleared));
    } else {
      PutSets(q.pending, cleared);
    }
  }

  lemma TakeKeepsQueueInv(q: Queue, now: real)
    requires QueueInv(q) && q.inFlight == map[]
    ensures QueueInv(TakeFrom(q, now))
  {
    var i := FirstReady(q, now);
    if i < |q.pending| {
      RemoveClears(q.pending, i);
    }
  }

  lemma RequeueKeepsQueueInv(q: Queue, key: JobKey)
    requires QueueInv(q) && key in q.inFlight
    ensures QueueInv(Settle(RequeueInto(q, q.inFlight[key].job), q.inFlight[key].job))
  {
    var job := q.inFlight[key].job;
    PutSets(q.pending, job.(attempt := job.attempt + 1));
    assert Settle(RequeueInto(q, job), job).inFlight == map[];
  }

  lemma SubmitConserves(w: Worker, job: Job)
    requires WorkerInv(w) && job.coalesced == 0
    ensures Conserved(Step(w, Submitted(job)))
  {
    var cleared := ClearSkipInFlight(w.queue, job);
    var waiting := Waiting(w.queue.pending, cleared.Key());
    if waiting.Some? {
      MergeKeepsKey(waiting.value, cleared);
      PendingWeightPut(w.queue.pending, MergeJobs(waiting.value, cleared));
    } else {
      PendingWeightPut(w.queue.pending, cleared);
    }
  }

  lemma TakeConserves(w: Worker, now: real)
    requires WorkerInv(w) && Enabled(w, Took(now))
    ensures Conserved(Step(w, Took(now)))
  {
    var i := FirstReady(w.queue, now);
    if i < |w.queue.pending| {
      PendingWeightRemove(w.queue.pending, i);
      TakeKeepsQueueInv(w.queue, now);
      InFlightWeightIs(TakeFrom(w.queue, now), w.queue.pending[i].Key());
    }
  }

  lemma EndConserves(w: Worker, e: Event)
    requires WorkerInv(w) && Enabled(w, e) && (e.Finished? || e.Cancelled?)
    ensures Conserved(Step(w, e))
  {
    var job := w.queue.inFlight[e.key].job;
    InFlightWeightIs(w.queue, e.key);
    PendingWeightPut(w.queue.pending, job.(attempt := job.attempt + 1));
    assert Step(w, e).queue.inFlight == map[];
  }

  // Submits set the event, so a sleeping loop either learns of the change or already waits for it.
  lemma SubmitKeepsLookout(w: Worker, job: Job)
    requires WorkerInv(w) && job.coalesced == 0
    ensures WillLookInTime(Step(w, Submitted(job)))
  {
  }

  lemma SleepLooksInTime(w: Worker, now: real)
    requires WorkerInv(w) && Enabled(w, FellAsleep(now))
    ensures WillLookInTime(Step(w, FellAsleep(now)))
  {
    var q := w.queue;
    if q.pending != [] {
      var delay := NextReadyIn(q.pending, q.accepting, now).value;
      assert exists job | job in q.pending :: delay == SecondsUntilReady(q.accepting, job, now);
      forall job | job in q.pending
        ensures now + delay <= job.holdSince + job.holdSeconds
      {
        assert delay <= SecondsUntilReady(q.accepting, job, now);
      }
    }
  }

  // It does not wake for nothing either: the deadline is the end of some hold.
  lemma SleepEndsWithAHold(w: Worker, now: real)
    requires Enabled(w, FellAsleep(now)) && w.queue.pending != [] && w.queue.accepting
    ensures var deadline := Step(w, FellAsleep(now)).sleeping.deadline;
            && deadline.Some? && deadline.value > now
            && exists job | job in w.queue.pending :: deadline.value == job.holdSince + job.holdSeconds
  {
    var q := w.queue;
    var delay := NextReadyIn(q.pending, q.accepting, now).value;
    var job :| job in q.pending && delay == SecondsUntilReady(q.accepting, job, now);
    ReadyMeansHoldOver(q, job, now);
    assert now + delay == job.holdSince + job.holdSeconds;
  }

  lemma SleepNeedsAHold(w: Worker, now: real)
    requires Enabled(w, FellAsleep(now)) && w.queue.pending != []
    ensures w.queue.accepting
  {
    var delay := NextReadyIn(w.queue.pending, w.queue.accepting, now).value;
    var job :| job in w.queue.pending && delay == SecondsUntilReady(w.queue.accepting, job, now);
  }

  lemma StepKeepsWorkerInv(w: Worker, e: Event)
    requires WorkerInv(w) && Enabled(w, e)
    ensures WorkerInv(Step(w, e))
  {
    match e
    case Submitted(job) =>
      SubmitKeepsQueueInv(w.queue, job);
      SubmitConserves(w, job);
      SubmitKeepsLookout(w, job);
    case FellAsleep(now) =>
      SleepLooksInTime(w, now);
      if w.queue.pending != [] {
        SleepNeedsAHold(w, now);
      }
    case WokeUp(now) =>
    case Unwound =>
    case Took(now) =>
      TakeKeepsQueueInv(w.queue, now);
      TakeConserves(w, now);
    case Finished(key) =>
      EndConserves(w, e);
      assert Step(w, e).queue.inFlight == map[];
    case Cancelled(key) =>
      EndConserves(w, e);
      RequeueKeepsQueueInv(w.queue, key);
    case Stopped =>
  }

  // An accepted submit and a requeue set the event, and no step but falling asleep clears it.
  lemma WorkSetsTheEvent(w: Worker, e: Event)
    requires Enabled(w, e)
    ensures e.Submitted? && SubmitTo(w.queue, e.job).accepted ==> Step(w, e).workAvailable
    ensures e.Cancelled? ==> Step(w, e).workAvailable
    ensures w.workAvailable && !e.FellAsleep? ==> Step(w, e).workAvailable
  {
  }

  // A sleeping worker can be stopped at once, whatever it is waiting for, and then every hold is over.
  lemma StopFromSleep(w: Worker, now: real)
    requires WorkerInv(w) && w.sleeping.Asleep?
    ensures RunEnabled(w, [Unwound, Stopped])
    ensures var stopped := Run(w, [Unwound, Stopped]);
            && WorkerInv(stopped) && stopped.queue.pending == w.queue.pending && !stopped.queue.accepting
            && forall job | job in stopped.queue.pending :: Ready(stopped.queue, job, now)
  {
    StepKeepsWorkerInv(w, Unwound);
    StepKeepsWorkerInv(Step(w, Unwound), Stopped);
    assert [Unwound, Stopped][1..] == [Stopped] && [Stopped][1..] == [];
  }

  // Every reachable worker conserves its accepted submits, keeps at most one job in flight and at most
  // max_pending + 1 outstanding, and never sleeps through a job that is ready.
  lemma {:induction false} ReachableWorkerInv(w: Worker, events: seq<Event>)
    requires WorkerInv(w) && RunEnabled(w, events)
    ensures WorkerInv(Run(w, events))
    decreases |events|
  {
    if events != [] {
      StepKeepsWorkerInv(w, events[0]);
      ReachableWorkerInv(Step(w, events[0]), events[1..]);
    }
  }

  lemma QueueTheorem(maxPending: nat, events: seq<Event>, now: real)
    requires RunEnabled(Idle(maxPending), events)
    ensures var w := Run(Idle(maxPending), events);
            && Conserved(w)
            && AtMostOneInFlight(w.queue)
            && |w.queue.pending| + InFlightCount(w.queue) <= maxPending + 1
            && (w.sleeping.Asleep? ==>
                  (exists job | job in w.queue.pending :: Ready(w.queue, job, now)) ==> WakeEnabled(w, now))
  {
    var w0 := Idle(maxPending);
    assert WorkerInv(w0);
    ReachableWorkerInv(w0, events);
    MaxPendingIsFixed(w0, events);
    var w := Run(w0, events);
    if w.sleeping.Asleep? && exists job | job in w.queue.pending :: Ready(w.queue, job, now) {
      var job :| job in w.queue.pending && Ready(w.queue, job, now);
    }
  }

  lemma {:induction false} MaxPendingIsFixed(w: Worker, events: seq<Event>)
    requires RunEnabled(w, events)
    ensures Run(w, events).queue.maxPending == w.queue.maxPending
    decreases |events|
  {
    if events != [] {
      MaxPendingIsFixed(Step(w, events[0]), events[1..]);
    }
  }

  // ---- The mutable queue ----

  datatype JobOutcome = Refreshed | Sent | Skipped | Failed

  class RefreshQueue {
    const maxPending: nat
    var pending: seq<Job>
    var inFlight: map<JobKey, RunningJob>
    var accepting: bool
    var workAvailable: bool
    // The counters of the reporting window in progress.
    var queuedHighWater: nat
    var succeeded: nat
    var failed: nat

    function View(): Queue
      reads this
    {
      Queue(pending, inFlight, accepting, maxPending)
    }

    constructor (maxPending: nat)
      ensures View() == Idle(maxPending).queue
      ensures !workAvailable && queuedHighWater == succeeded == failed == 0
    {
      this.maxPending := maxPending;
      pending, inFlight, accepting, workAvailable := [], map[], true, false;
      queuedHighWater, succeeded, failed := 0, 0, 0;
    }

    method Submit(submitted: Job) returns (accepted: bool)
      modifies this
      ensures Submission(View(), accepted) == SubmitTo(old(View()), submitted)
      ensures accepted <==> old(accepting) && (HasKey(old(pending), submitted.Key()) || |old(pending)| < maxPending)
      ensures accepted ==> HasKey(pending, submitted.Key())
      ensures !accepted ==> pending == old(pending)
      ensures inFlight == old(inFlight) && accepting == old(accepting)
      ensures workAvailable == (old(workAvailable) || accepted)
      ensures var higher := accepted && |pending| > old(queuedHighWater);
              queuedHighWater == if higher then |pending| else old(queuedHighWater)
      ensures succeeded == old(succeeded) && failed == old(failed)
    {
      if !accepting {
        return false;
      }
      var job := submitted;
      PutHasKey(pending, submitted);
      if job.MeetingRefresh? && job.Key() in inFlight {
        job := job.(skip := None);
      }
      var waiting := Waiting(pending, job.Key());
      if waiting.Some? {
        MergeKeepsKey(waiting.value, job);
        job := MergeJobs(waiting.value, job);
      } else if |pending| >= maxPending {
        return false;
      }
      PutHasKey(pending, job);
      pending := Put(pending, job);
      if |pending| > queuedHighWater {
        queuedHighWater := |pending|;
      }
      workAvailable := true;
      return true;
    }

    // `job` was the first of `before` whose hold is over, and `after` is what is left, in order.
    ghost predicate TookOldest(before: seq<Job>, after: seq<Job>, job: Job, accepting: bool, now: real) {
      exists i | 0 <= i < |before| ::
        && before[i] == job && after == before[..i] + before[i + 1..]
        && forall k | 0 <= k < i :: accepting && now < before[k].holdSince + before[k].holdSeconds
    }

    // The scan stops at the first job whose hold has run out; the key leaves `pending` here, before
    // the job reads anything.
    method Take(now: real) returns (running: Option<RunningJob>)
      modifies this`pending, this`inFlight
      ensures View() == TakeFrom(old(View()), now)
      ensures running.None? <==>
                forall job | job in old(pending) :: accepting && now < job.holdSince + job.holdSeconds
      ensures running.None? ==> pending == old(pending) && inFlight == old(inFlight)
      ensures running.Some? ==>
                && running.value.started == now
                && (accepting ==> running.value.job.holdSince + running.value.job.holdSeconds <= now)
                && inFlight == old(inFlight)[running.value.job.Key() := running.value]
                && TookOldest(old(pending), pending, running.value.job, accepting, now)
    {
      var i := 0;
      while i < |pending| && SecondsUntilReady(accepting, pending[i], now) != 0.0
        invariant i <= |pending|
        invariant forall j | 0 <= j < i :: !Ready(View(), pending[j], now)
      {
        i := i + 1;
      }
      ghost var q := View();
      forall job
        ensures Ready(q, job, now) <==> !accepting || job.holdSince + job.holdSeconds <= now
      {
        ReadyMeansHoldOver(q, job, now);
      }
      assert i == FirstReady(q, now);
      if i == |pending| {
        return None;
      }
      var job := pending[i];
      running := Some(RunningJob(job, now));
      pending := RemoveAt(pending, i);
      inFlight := inFlight[job.Key() := running.value];
      assert q.pending[i] == job && pending == q.pending[..i] + q.pending[i + 1..];
    }

    method Requeue(job: Job)
      modifies this`pending, this`workAvailable
      ensures View() == RequeueInto(old(View()), job)
      ensures workAvailable
    {
      if Waiting(pending, job.Key()).None? {
        pending := Put(pending, job.(attempt := job.attempt + 1));
      }
      workAvailable := true;
    }

    // The end of `run_next`: an outcome is counted, a cancellation (None) puts the job back, and
    // either way its key leaves flight.
    method EndJob(job: Job, outcome: Option<JobOutcome>)
      modifies this
      ensures View() == Settle(if outcome.None? then RequeueInto(old(View()), job) else old(View()), job)
      ensures workAvailable == (old(workAvailable) || outcome.None?)
      ensures succeeded == old(succeeded) + if outcome.Some? && outcome != Some(Failed) then 1 else 0
      ensures failed == old(failed) + if outcome == Some(Failed) then 1 else 0
      ensures queuedHighWater == old(queuedHighWater)
    {
      match outcome {
        case None => Requeue(job);
        case Some(Failed) => failed := failed + 1;
        case Some(_) => succeeded := succeeded + 1;
      }
      inFlight := inFlight - {job.Key()};
    }

    // One turn of `run_next` on a stopping queue, whose holds have all ended: the oldest job is taken
    // and runs to `outcome`, or is interrupted (None) and goes to the back with its attempt counted.
    method RunStopping(now: real, outcome: Option<JobOutcome>) returns (job: Job)
      requires UniqueKeys(pending) && inFlight == map[] && pending != [] && !accepting
      modifies this
      ensures !accepting && inFlight == map[]
      ensures job == old(pending)[0]
      ensures pending == old(pending)[1..] + if outcome.None? then [job.(attempt := job.attempt + 1)] else []
      ensures succeeded + failed == old(succeeded + failed) + if outcome.None? then 0 else 1
    {
      ghost var q := View();
      assert Ready(q, pending[0], now);
      assert FirstReady(q, now) == 0;
      var running := Take(now);
      job := running.value.job;
      assert pending == q.pending[1..];
      WaitingAbsent(pending, job.Key());
      EndJob(job, outcome);
      assert inFlight == map[];
    }

    // The shutdown drain. `completions` are the outcomes of the jobs that end before the drain
    // deadline; the job running when it strikes is cancelled. A stopping queue holds nothing, so the
    // jobs run in order, each once, and the loop ends.
    method DrainPending(now: real, completions: seq<JobOutcome>) returns (executed: seq<Job>)
      requires UniqueKeys(pending) && inFlight == map[]
      modifies this
      ensures !accepting && inFlight == map[]
      ensures |completions| >= |old(pending)| ==> executed == old(pending) && pending == []
      ensures |completions| < |old(pending)| ==>
                var n := |completions|;
                && executed == old(pending)[..n]
                && pending == old(pending)[n + 1..] + [old(pending)[n].(attempt := old(pending)[n].attempt + 1)]
      ensures (succeeded + failed) - old(succeeded + failed) == |executed|
    {
      accepting := false;
      executed := [];
      ghost var held := pending;
      while pending != []
        invariant !accepting && inFlight == map[]
        invariant |executed| <= |completions| && |executed| <= |held|
        invariant executed == held[..|executed|] && pending == held[|executed|..]
        invariant (succeeded + failed) - old(succeeded + failed) == |executed|
        decreases |pending|
      {
        ghost var k := |executed|;
        assert pending[0] == held[k];
        assert UniqueKeys(pending);
        var stopped := |executed| == |completions|;
        var job := RunStopping(now, if stopped then None else Some(completions[|executed|]));
        if stopped {
          return;
        }
        executed := executed + [job];
      }
    }
  }
}
