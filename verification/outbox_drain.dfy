// The post-commit drain of the Telegram calls a write-mode invocation queued
// (libs/telegram/mitup_bot/api_wrapper.py): when a call may be repeated, and when the drain skips or
// gives up on the rest.
module OutboxDrain {
  import opened Wrappers

  const QUEUED_CALL_ATTEMPTS := 3
  const DRAIN_NETWORK_FAILURE_LIMIT := 3
  const DRAIN_INLINE_EDIT_TIMEOUT_LIMIT := 3

  datatype QueuedApiCall = QueuedApiCall(name: string, idempotent: bool, inlineMessageId: Option<string>)

  // ---- One call ----

  // What stands behind a network error: only a failure to connect proves that nothing was sent.
  datatype Cause = ConnectFailure | ReadTimeout | OtherTransport

  datatype Reply =
    | Accepted
    | NotModified
    | BadRequest
    | NetworkError(cause: Cause)
    | InactiveUser(tgUserId: int)
    | OtherError

  // One attempt as the world decides it: the answer that comes back and whether Telegram applied it.
  datatype Attempt = Attempt(reply: Reply, applied: bool)

  predicate NeverReachedTelegram(reply: Reply) {
    reply == NetworkError(ConnectFailure)
  }

  predicate Plausible(attempt: Attempt) {
    NeverReachedTelegram(attempt.reply) ==> !attempt.applied
  }

  predicate Retryable(queued: QueuedApiCall, reply: Reply) {
    reply.NetworkError? && (NeverReachedTelegram(reply) || queued.idempotent)
  }

  // The attempts made are the first `made` of what the world has in store: each but the last failed
  // in a way that may be repeated, and the last did not or was the third.
  ghost predicate MadeAttempts(queued: QueuedApiCall, world: seq<Attempt>, made: nat) {
    && 1 <= made <= |world| && made <= QUEUED_CALL_ATTEMPTS
    && (forall i | 0 <= i < made - 1 :: Retryable(queued, world[i].reply))
    && (made == QUEUED_CALL_ATTEMPTS || !Retryable(queued, world[made - 1].reply))
  }

  method InvokeQueuedWithRetry(queued: QueuedApiCall, world: seq<Attempt>) returns (made: nat, reply: Reply)
    requires |world| >= QUEUED_CALL_ATTEMPTS
    ensures MadeAttempts(queued, world, made)
    ensures reply == world[made - 1].reply
    ensures 1 <= made <= 3
    ensures forall i | 0 <= i < made - 1 ::
              world[i].reply.NetworkError? && (queued.idempotent || world[i].reply.cause == ConnectFailure)
    ensures made < 3 ==> !reply.NetworkError? || (!queued.idempotent && reply.cause != ConnectFailure)
  {
    made := 1;
    while made < QUEUED_CALL_ATTEMPTS
      invariant 1 <= made <= QUEUED_CALL_ATTEMPTS
      invariant forall i | 0 <= i < made - 1 :: Retryable(queued, world[i].reply)
    {
      reply := world[made - 1].reply;
      if !reply.NetworkError? || !Retryable(queued, reply) {
        return;
      }
      made := made + 1;
    }
    reply := world[made - 1].reply;
  }

  lemma AttemptsAreDetermined(queued: QueuedApiCall, world: seq<Attempt>, made: nat, made': nat)
    requires MadeAttempts(queued, world, made) && MadeAttempts(queued, world, made')
    ensures made == made'
  {
  }

  function AttemptsMade(queued: QueuedApiCall, world: seq<Attempt>): (made: nat)
    requires |world| >= QUEUED_CALL_ATTEMPTS
    ensures MadeAttempts(queued, world, made)
  {
    if !Retryable(queued, world[0].reply) then 1 else if !Retryable(queued, world[1].reply) then 2 else 3
  }

  function TimesApplied(world: seq<Attempt>, made: nat): nat
    requires made <= |world|
  {
    if made == 0 then 0 else TimesApplied(world, made - 1) + if world[made - 1].applied then 1 else 0
  }

  // A call whose repetition would deliver twice is applied at most once, whatever the network does:
  // every attempt but the last provably never left the process.
  lemma SentAtMostOnce(queued: QueuedApiCall, world: seq<Attempt>, made: nat)
    requires MadeAttempts(queued, world, made)
    requires !queued.idempotent && forall i | 0 <= i < |world| :: Plausible(world[i])
    ensures forall i | 0 <= i < made - 1 :: NeverReachedTelegram(world[i].reply)
    ensures TimesApplied(world, made) == if world[made - 1].applied then 1 else 0
  {
    NothingAppliedBefore(queued, world, made, made - 1);
  }

  lemma {:induction false} NothingAppliedBefore(queued: QueuedApiCall, world: seq<Attempt>, made: nat, n: nat)
    requires MadeAttempts(queued, world, made) && n < made
    requires !queued.idempotent && forall i | 0 <= i < |world| :: Plausible(world[i])
    ensures TimesApplied(world, n) == 0
  {
    if n > 0 {
      assert Retryable(queued, world[n - 1].reply) && Plausible(world[n - 1]);
      NothingAppliedBefore(queued, world, made, n - 1);
    }
  }

  // ---- The whole queue ----

  datatype DrainOutcome = Sent | Failed | NetworkFailed | InlineEditTimedOut

  function Classify(queued: QueuedApiCall, reply: Reply): (outcome: DrainOutcome)
    ensures outcome == Sent <==> reply.Accepted? || reply.NotModified? || reply.InactiveUser?
    ensures outcome in {NetworkFailed, InlineEditTimedOut} <==> reply.NetworkError?
    ensures outcome == InlineEditTimedOut <==> queued.inlineMessageId.Some? && reply == NetworkError(ReadTimeout)
  {
    match reply
    case Accepted | NotModified | InactiveUser(_) => Sent
    case BadRequest | OtherError => Failed
    case NetworkError(cause) =>
      if queued.inlineMessageId.Some? && cause.ReadTimeout? then InlineEditTimedOut else NetworkFailed
  }

  // What became of a queued call.
  datatype Disposition = Ran(outcome: DrainOutcome) | Skipped | Abandoned

  // An outcome that says Telegram can be reached.
  predicate Reaches(d: Disposition) {
    d == Ran(Sent) || d == Ran(Failed)
  }

  // The call at `s` is a network failure with two earlier ones behind it and no proof of life since
  // the first of the three: slow inline edits and skipped calls neither count nor reset the count.
  ghost predicate DeadAt(ds: seq<Disposition>, s: int) {
    && 0 <= s < |ds| && ds[s] == Ran(NetworkFailed)
    && exists a, b :: BothBehind(ds, a, b, s)
  }

  predicate BothBehind(ds: seq<Disposition>, a: int, b: int, s: int)
    requires s < |ds|
  {
    && 0 <= a < b < s
    && ds[a] == Ran(NetworkFailed) && ds[b] == Ran(NetworkFailed)
    && forall i | a < i < s :: ds[i] != Ran(Sent) && ds[i] != Ran(Failed)
  }

  function Count(ds: seq<Disposition>, d: Disposition): nat {
    if ds == [] then 0 else Count(ds[..|ds| - 1], d) + if ds[|ds| - 1] == d then 1 else 0
  }

  ghost predicate GivenUpBefore(ds: seq<Disposition>, i: int) {
    exists s | 0 <= s < i :: DeadAt(ds, s)
  }

  // A call reached after `before` is skipped when it is an inline edit behind three slow ones.
  function Turn(queued: QueuedApiCall, outcome: DrainOutcome, before: seq<Disposition>): Disposition {
    var stalled := Count(before, Ran(InlineEditTimedOut)) >= DRAIN_INLINE_EDIT_TIMEOUT_LIMIT;
    if queued.inlineMessageId.Some? && stalled then Skipped else Ran(outcome)
  }

  // The rules of the drain, call by call: abandoned after the third network failure, otherwise skipped
  // when it is an inline edit behind three slow ones, otherwise run.
  ghost predicate Disposed(calls: seq<QueuedApiCall>, outcomes: seq<DrainOutcome>, ds: seq<Disposition>)
    requires |outcomes| == |calls|
  {
    && |ds| == |calls|
    && forall i | 0 <= i < |ds| ::
         ds[i] == if GivenUpBefore(ds, i) then Abandoned else Turn(calls[i], outcomes[i], ds[..i])
  }

  // Consecutive network failures at the end of `ds`, as the report counts them.
  function NetworkRun(ds: seq<Disposition>): nat {
    if ds == [] then 0
    else
      var n := |ds| - 1;
      if ds[n] == Ran(NetworkFailed) then NetworkRun(ds[..n]) + 1
      else if Reaches(ds[n]) then 0
      else NetworkRun(ds[..n])
  }

  // The failures a run of length `n > 0` counts: the last of them and the run before it.
  lemma {:induction false} RunHasLast(ds: seq<Disposition>) returns (a: nat)
    requires NetworkRun(ds) > 0
    ensures a < |ds| && ds[a] == Ran(NetworkFailed)
    ensures NetworkRun(ds[..a]) == NetworkRun(ds) - 1
    ensures forall i | a < i < |ds| :: !Reaches(ds[i]) && ds[i] != Ran(NetworkFailed)
    decreases |ds|
  {
    var n := |ds| - 1;
    if ds[n] == Ran(NetworkFailed) {
      a := n;
    } else {
      a := RunHasLast(ds[..n]);
      assert ds[..n][..a] == ds[..a];
    }
  }

  // Every failure with no proof of life after it is counted.
  lemma {:induction false} RunCounts(ds: seq<Disposition>, a: nat)
    requires a < |ds| && ds[a] == Ran(NetworkFailed) && forall i | a < i < |ds| :: !Reaches(ds[i])
    ensures NetworkRun(ds) >= NetworkRun(ds[..a]) + 1
    decreases |ds|
  {
    var n := |ds| - 1;
    if a < n {
      RunCounts(ds[..n], a);
      assert ds[..n][..a] == ds[..a];
    }
  }

  lemma DeadAtIsThreeInARow(ds: seq<Disposition>, s: nat)
    requires s < |ds| && ds[s] == Ran(NetworkFailed)
    ensures DeadAt(ds, s) <==> NetworkRun(ds[..s + 1]) >= DRAIN_NETWORK_FAILURE_LIMIT
  {
    var upTo := ds[..s + 1];
    assert upTo[..s] == ds[..s];
    if NetworkRun(upTo) >= 3 {
      var b := RunHasLast(ds[..s]);
      assert ds[..s][..b] == ds[..b];
      var a := RunHasLast(ds[..b]);
      assert BothBehind(ds, a, b, s);
    }
    if DeadAt(ds, s) {
      var a, b :| BothBehind(ds, a, b, s);
      RunCounts(ds[..b], a);
      RunCounts(ds[..s], b);
      assert ds[..s][..b] == ds[..b];
    }
  }

  lemma DeadAtPrefix(ds: seq<Disposition>, n: nat, s: int)
    requires n <= |ds| && 0 <= s < n
    ensures DeadAt(ds[..n], s) <==> DeadAt(ds, s)
  {
    var cut := ds[..n];
    if DeadAt(ds, s) {
      var a, b :| BothBehind(ds, a, b, s);
      assert BothBehind(cut, a, b, s);
    }
    if DeadAt(cut, s) {
      var a, b :| BothBehind(cut, a, b, s);
      assert BothBehind(ds, a, b, s);
    }
  }

  lemma SameUpTo(ds: seq<Disposition>, ds': seq<Disposition>, n: nat)
    requires n <= |ds| && n <= |ds'| && ds[..n] == ds'[..n]
    ensures GivenUpBefore(ds, n) <==> GivenUpBefore(ds', n)
  {
    forall s | 0 <= s < n
      ensures DeadAt(ds, s) <==> DeadAt(ds', s)
    {
      DeadAtPrefix(ds, n, s);
      DeadAtPrefix(ds', n, s);
    }
  }

  // The rules leave no choice.
  lemma {:induction false} DispositionsAreDetermined(calls: seq<QueuedApiCall>, outcomes: seq<DrainOutcome>,
      ds: seq<Disposition>, ds': seq<Disposition>, n: nat)
    requires |outcomes| == |calls| && Disposed(calls, outcomes, ds) && Disposed(calls, outcomes, ds')
    requires n <= |calls|
    ensures ds[..n] == ds'[..n]
  {
    if n > 0 {
      var i := n - 1;
      DispositionsAreDetermined(calls, outcomes, ds, ds', i);
      SameUpTo(ds, ds', i);
      assert ds[i] == ds'[i];
      assert ds[..n] == ds[..i] + [ds[i]] && ds'[..n] == ds'[..i] + [ds'[i]];
    }
  }

  // Once the drain has given up nothing further runs, and until then every call that is not an inline
  // edit does.
  lemma OnlyInlineEditsAreSkipped(calls: seq<QueuedApiCall>, outcomes: seq<DrainOutcome>, ds: seq<Disposition>, i: nat)
    requires |outcomes| == |calls| && Disposed(calls, outcomes, ds) && i < |calls|
    ensures calls[i].inlineMessageId.None? && !GivenUpBefore(ds, i) ==> ds[i] == Ran(outcomes[i])
    ensures ds[i] == Skipped <==>
              !GivenUpBefore(ds, i) && calls[i].inlineMessageId.Some? && Count(ds[..i], Ran(InlineEditTimedOut)) >= 3
    ensures ds[i] == Abandoned <==> exists s | 0 <= s < i :: DeadAt(ds, s)
    ensures ds[i] == Abandoned ==> forall j | i <= j < |calls| :: ds[j] == Abandoned
  {
    if ds[i] == Abandoned {
      assert GivenUpBefore(ds, i);
      forall j | i <= j < |calls|
        ensures ds[j] == Abandoned
      {
        assert GivenUpBefore(ds, j);
      }
    }
  }

  // ---- The report ----

  class DrainReport {
    const queued: nat
    var sent: nat
    var failed: nat
    var consecutiveNetworkFailures: nat
    var inlineEditTimeouts: nat
    var abandoned: seq<string>
    var skippedInlineMessageIds: seq<string>

    constructor (queued: nat)
      ensures this.queued == queued && sent == failed == consecutiveNetworkFailures == inlineEditTimeouts == 0
      ensures abandoned == [] && skippedInlineMessageIds == []
    {
      this.queued := queued;
      sent, failed, consecutiveNetworkFailures, inlineEditTimeouts := 0, 0, 0, 0;
      abandoned, skippedInlineMessageIds := [], [];
    }

    // What the report says once `ds` has happened to the first |ds| calls.
    ghost predicate Tallies(calls: seq<QueuedApiCall>, ds: seq<Disposition>)
      reads this
    {
      && |ds| <= |calls|
      && sent == Count(ds, Ran(Sent))
      && failed == Count(ds, Ran(Failed)) + Count(ds, Ran(NetworkFailed)) + Count(ds, Ran(InlineEditTimedOut))
      && inlineEditTimeouts == Count(ds, Ran(InlineEditTimedOut))
      && consecutiveNetworkFailures == NetworkRun(ds)
      && skippedInlineMessageIds == SkippedIds(calls, ds)
    }

    // The report of a finished drain.
    ghost predicate AccountsFor(calls: seq<QueuedApiCall>, ds: seq<Disposition>)
      reads this
    {
      && |ds| == |calls|
      && sent == Count(ds, Ran(Sent))
      && failed == Count(ds, Ran(Failed)) + Count(ds, Ran(NetworkFailed)) + Count(ds, Ran(InlineEditTimedOut))
      && skippedInlineMessageIds == SkippedIds(calls, ds)
      && Count(ds, Abandoned) <= |calls| && abandoned == Names(calls[|calls| - Count(ds, Abandoned)..])
    }

    // A queue that was run to its end leaves nothing abandoned.
    lemma AccountsForAll(calls: seq<QueuedApiCall>, ds: seq<Disposition>)
      requires Tallies(calls, ds) && |ds| == |calls| && abandoned == [] && Count(ds, Abandoned) == 0
      ensures AccountsFor(calls, ds)
    {
      assert calls[|calls|..] == [];
    }

    // After the drain gave up the rest of the queue is named.
    lemma AccountsForRest(calls: seq<QueuedApiCall>, world: seq<seq<Attempt>>, ran: seq<Disposition>, n: nat)
      requires Scripted(calls, world) && |ran| + n == |calls| && Tallies(calls, ran)
      requires Count(ran, Abandoned) == 0 && abandoned == Names(calls[|ran|..])
      ensures AccountsFor(calls, ran + Gone(n))
      ensures Unreachable(calls, world, ran + Gone(n)) == Unreachable(calls, world, ran)
    {
      AbandonedTail(calls, world, ran, n);
    }

    method Skip(queued: QueuedApiCall, ghost calls: seq<QueuedApiCall>, ghost ds: seq<Disposition>)
      requires Tallies(calls, ds) && |ds| < |calls| && calls[|ds|] == queued && queued.inlineMessageId.Some?
      modifies this`skippedInlineMessageIds
      ensures Tallies(calls, ds + [Skipped]) && abandoned == old(abandoned)
    {
      OneMore(calls, ds, Skipped);
      skippedInlineMessageIds := skippedInlineMessageIds + [queued.inlineMessageId.value];
    }

    method Record(outcome: DrainOutcome, ghost calls: seq<QueuedApiCall>, ghost ds: seq<Disposition>)
      requires Tallies(calls, ds) && |ds| < |calls|
      modifies this`sent, this`failed, this`consecutiveNetworkFailures, this`inlineEditTimeouts
      ensures Tallies(calls, ds + [Ran(outcome)]) && abandoned == old(abandoned)
    {
      OneMoreRan(calls, ds, outcome);
      if outcome == Sent {
        sent := sent + 1;
      } else {
        failed := failed + 1;
      }
      if outcome == InlineEditTimedOut {
        inlineEditTimeouts := inlineEditTimeouts + 1;
        return;
      }
      consecutiveNetworkFailures := if outcome == NetworkFailed then consecutiveNetworkFailures + 1 else 0;
    }

    predicate NetworkIsDead()
      reads this
    {
      consecutiveNetworkFailures >= DRAIN_NETWORK_FAILURE_LIMIT
    }

    predicate InlineEditsAreStalled()
      reads this
    {
      inlineEditTimeouts >= DRAIN_INLINE_EDIT_TIMEOUT_LIMIT
    }
  }

  lemma OneMore(calls: seq<QueuedApiCall>, ds: seq<Disposition>, d: Disposition)
    requires |ds| < |calls|
    ensures forall e :: Count(ds + [d], e) == Count(ds, e) + if d == e then 1 else 0
    ensures NetworkRun(ds + [d])
         == if d == Ran(NetworkFailed) then NetworkRun(ds) + 1 else if Reaches(d) then 0 else NetworkRun(ds)
    ensures SkippedIds(calls, ds + [d])
         == SkippedIds(calls, ds) + if d.Skipped? then InlineId(calls[|ds|]) else []
  {
    assert (ds + [d])[..|ds|] == ds;
  }

  lemma OneMoreRan(calls: seq<QueuedApiCall>, ds: seq<Disposition>, outcome: DrainOutcome)
    requires |ds| < |calls|
    ensures var all := ds + [Ran(outcome)];
            && Count(all, Ran(Sent)) == Count(ds, Ran(Sent)) + (if outcome == Sent then 1 else 0)
            && Count(all, Ran(Failed)) == Count(ds, Ran(Failed)) + (if outcome == Failed then 1 else 0)
            && Count(all, Ran(NetworkFailed))
                == Count(ds, Ran(NetworkFailed)) + (if outcome == NetworkFailed then 1 else 0)
            && Count(all, Ran(InlineEditTimedOut))
               == Count(ds, Ran(InlineEditTimedOut)) + (if outcome == InlineEditTimedOut then 1 else 0)
            && NetworkRun(all)
               == (if outcome == NetworkFailed then NetworkRun(ds) + 1
                   else if outcome == InlineEditTimedOut then NetworkRun(ds) else 0)
            && SkippedIds(calls, all) == SkippedIds(calls, ds)
  {
    OneMore(calls, ds, Ran(outcome));
  }

  ghost predicate Scripted(calls: seq<QueuedApiCall>, world: seq<seq<Attempt>>) {
    |world| == |calls| && forall i | 0 <= i < |world| :: |world[i]| >= QUEUED_CALL_ATTEMPTS
  }

  // What the last attempt made at a call answers.
  function FinalReply(queued: QueuedApiCall, world: seq<Attempt>): Reply
    requires |world| >= QUEUED_CALL_ATTEMPTS
  {
    world[AttemptsMade(queued, world) - 1].reply
  }

  function UnreachableIn(reply: Reply): seq<int> {
    if reply.InactiveUser? then [reply.tgUserId] else []
  }

  // The outcome each call has if it is run at all.
  ghost function Outcomes(calls: seq<QueuedApiCall>, world: seq<seq<Attempt>>): (outcomes: seq<DrainOutcome>)
    requires Scripted(calls, world)
    ensures |outcomes| == |calls|
    ensures forall i | 0 <= i < |calls| :: outcomes[i] == Classify(calls[i], FinalReply(calls[i], world[i]))
  {
    seq(|calls|, i requires 0 <= i < |calls| && Scripted(calls, world) =>
      Classify(calls[i], FinalReply(calls[i], world[i])))
  }

  ghost predicate SoFar(calls: seq<QueuedApiCall>, outcomes: seq<DrainOutcome>, ds: seq<Disposition>) {
    && |ds| <= |calls| && |outcomes| == |calls|
    && (forall s | 0 <= s < |ds| :: !DeadAt(ds, s))
    && forall i | 0 <= i < |ds| ::
         ds[i] == Turn(calls[i], outcomes[i], ds[..i])
  }

  lemma SoFarExtends(calls: seq<QueuedApiCall>, outcomes: seq<DrainOutcome>, ds: seq<Disposition>, d: Disposition)
    requires |ds| < |calls| && SoFar(calls, outcomes, ds)
    requires d == Turn(calls[|ds|], outcomes[|ds|], ds)
    requires d == Ran(NetworkFailed) ==> NetworkRun(ds + [d]) < DRAIN_NETWORK_FAILURE_LIMIT
    ensures SoFar(calls, outcomes, ds + [d])
  {
    var after := ds + [d];
    forall s | 0 <= s < |after|
      ensures !DeadAt(after, s)
    {
      if s < |ds| {
        DeadAtPrefix(after, |ds|, s);
        assert after[..|ds|] == ds;
      } else if d == Ran(NetworkFailed) {
        assert after[..s + 1] == after;
        DeadAtIsThreeInARow(after, s);
      }
    }
    forall i | 0 <= i < |after|
      ensures after[i] == Turn(calls[i], outcomes[i], after[..i])
    {
      assert after[..i] == ds[..i];
      if i == |ds| {
        assert ds[..i] == ds;
      }
    }
  }

  lemma SoFarIsDisposed(calls: seq<QueuedApiCall>, outcomes: seq<DrainOutcome>, ds: seq<Disposition>)
    requires SoFar(calls, outcomes, ds) && |ds| == |calls|
    ensures Disposed(calls, outcomes, ds)
  {
  }

  function Gone(n: nat): (ds: seq<Disposition>)
    ensures |ds| == n && forall i | 0 <= i < n :: ds[i] == Abandoned
  {
    seq(n, i => Abandoned)
  }

  // The third failure in a row at the end of `ds` disposes of everything behind it.
  lemma GivenUpFrom(ds: seq<Disposition>, n: nat)
    requires n < |ds| && ds[n] == Ran(NetworkFailed)
    requires NetworkRun(ds[..n + 1]) >= DRAIN_NETWORK_FAILURE_LIMIT
    requires forall s | 0 <= s < n :: !DeadAt(ds[..n], s)
    ensures forall i | 0 <= i <= |ds| :: GivenUpBefore(ds, i) <==> i > n
  {
    DeadAtIsThreeInARow(ds, n);
    forall s | 0 <= s < n
      ensures !DeadAt(ds, s)
    {
      DeadAtPrefix(ds, n, s);
    }
  }

  lemma GivingUpIsDisposed(calls: seq<QueuedApiCall>, outcomes: seq<DrainOutcome>, ds: seq<Disposition>,
      all: seq<Disposition>)
    requires |ds| < |calls| && SoFar(calls, outcomes, ds)
    requires Turn(calls[|ds|], outcomes[|ds|], ds) == Ran(NetworkFailed)
    requires NetworkRun(ds + [Ran(NetworkFailed)]) >= DRAIN_NETWORK_FAILURE_LIMIT
    requires all == ds + [Ran(NetworkFailed)] + Gone(|calls| - |ds| - 1)
    ensures Disposed(calls, outcomes, all)
  {
    var n := |ds|;
    assert all[..n + 1] == ds + [Ran(NetworkFailed)] && all[..n] == ds;
    GivenUpFrom(all, n);
    forall i | 0 <= i < |all|
      ensures all[i] == if i > n then Abandoned else Turn(calls[i], outcomes[i], all[..i])
    {
      if i < n {
        assert all[..i] == ds[..i];
      }
    }
  }

  function Names(calls: seq<QueuedApiCall>): (names: seq<string>)
    ensures |names| == |calls| && forall i | 0 <= i < |calls| :: names[i] == calls[i].name
  {
    seq(|calls|, i requires 0 <= i < |calls| => calls[i].name)
  }

  // The ids of the skipped edits, in queue order.
  function SkippedIds(calls: seq<QueuedApiCall>, ds: seq<Disposition>): seq<string>
    requires |ds| <= |calls|
  {
    if ds == [] then []
    else
      var n := |ds| - 1;
      SkippedIds(calls, ds[..n]) + if ds[n].Skipped? then InlineId(calls[n]) else []
  }

  function InlineId(queued: QueuedApiCall): seq<string> {
    if queued.inlineMessageId.Some? then [queued.inlineMessageId.value] else []
  }

  // The users Telegram reported unreachable, in the order their calls ran.
  ghost function Unreachable(calls: seq<QueuedApiCall>, world: seq<seq<Attempt>>, ds: seq<Disposition>): seq<int>
    requires Scripted(calls, world) && |ds| <= |calls|
  {
    if ds == [] then []
    else
      var n := |ds| - 1;
      Unreachable(calls, world, ds[..n]) + if ds[n].Ran? then UnreachableIn(FinalReply(calls[n], world[n])) else []
  }

  // The drain runs the calls in order under the rules above, and its report names what became of
  // every one of them.
  method DrainOutbox(calls: seq<QueuedApiCall>, world: seq<seq<Attempt>>)
    returns (report: DrainReport, ds: seq<Disposition>, inactiveTgUserIds: seq<int>)
    requires Scripted(calls, world)
    ensures fresh(report) && report.queued == |calls|
    ensures Disposed(calls, Outcomes(calls, world), ds)
    ensures report.AccountsFor(calls, ds)
    ensures inactiveTgUserIds == Unreachable(calls, world, ds)
  {
    ghost var outcomes := Outcomes(calls, world);
    report := new DrainReport(|calls|);
    ds, inactiveTgUserIds := [], [];
    while |ds| < |calls|
      invariant |ds| <= |calls|
      invariant fresh(report) && report.queued == |calls| && report.abandoned == []
      invariant SoFar(calls, outcomes, ds)
      invariant report.Tallies(calls, ds)
      invariant inactiveTgUserIds == Unreachable(calls, world, ds)
    {
      var queued := calls[|ds|];
      if queued.inlineMessageId.Some? && report.InlineEditsAreStalled() {
        report.Skip(queued, calls, ds);
        ds := Extended(calls, world, ds, Skipped);
        continue;
      }
      var outcome, inactive := DrainQueuedCall(queued, world[|ds|]);
      inactiveTgUserIds := inactiveTgUserIds + inactive;
      report.Record(outcome, calls, ds);
      if report.NetworkIsDead() {
        ds := GiveUp(calls, world, report, ds, outcome);
        return;
      }
      ds := Extended(calls, world, ds, Ran(outcome));
    }
    SoFarIsDisposed(calls, outcomes, ds);
    NothingAbandonedYet(calls, outcomes, ds);
    report.AccountsForAll(calls, ds);
  }

  // One call more, and the drain goes on.
  method Extended(calls: seq<QueuedApiCall>, ghost world: seq<seq<Attempt>>, before: seq<Disposition>, d: Disposition)
    returns (ds: seq<Disposition>)
    requires Scripted(calls, world) && |before| < |calls|
    requires SoFar(calls, Outcomes(calls, world), before)
    requires d == Turn(calls[|before|], Outcomes(calls, world)[|before|], before)
    requires d.Ran? ==> NetworkRun(before + [d]) < DRAIN_NETWORK_FAILURE_LIMIT
    ensures ds == before + [d] && SoFar(calls, Outcomes(calls, world), ds)
    ensures Unreachable(calls, world, ds)
         == Unreachable(calls, world, before)
            + if d.Ran? then UnreachableIn(FinalReply(calls[|before|], world[|before|])) else []
  {
    ds := before + [d];
    SoFarExtends(calls, Outcomes(calls, world), before, d);
    assert ds[..|before|] == before;
  }

  // The third consecutive network failure: the rest of the queue is named and dropped.
  method GiveUp(calls: seq<QueuedApiCall>, ghost world: seq<seq<Attempt>>, report: DrainReport,
      before: seq<Disposition>, outcome: DrainOutcome)
    returns (ds: seq<Disposition>)
    requires Scripted(calls, world) && |before| < |calls|
    requires SoFar(calls, Outcomes(calls, world), before)
    requires Turn(calls[|before|], Outcomes(calls, world)[|before|], before) == Ran(outcome)
    requires report.Tallies(calls, before + [Ran(outcome)]) && report.NetworkIsDead()
    modifies report`abandoned
    ensures Disposed(calls, Outcomes(calls, world), ds)
    ensures report.AccountsFor(calls, ds)
    ensures Unreachable(calls, world, ds)
         == Unreachable(calls, world, before) + UnreachableIn(FinalReply(calls[|before|], world[|before|]))
  {
    ghost var outcomes := Outcomes(calls, world);
    NetworkDeadNow(before, outcome, calls, outcomes);
    ghost var ran := before + [Ran(outcome)];
    var left := |calls| - |before| - 1;
    report.abandoned := Names(calls[|before| + 1..]);
    ds := before + [Ran(outcome)] + Gone(left);
    GivingUpIsDisposed(calls, outcomes, before, ds);
    NothingAbandonedYet(calls, outcomes, before);
    assert ran[..|before|] == before;
    report.AccountsForRest(calls, world, ran, left);
  }

  method DrainQueuedCall(queued: QueuedApiCall, world: seq<Attempt>)
      returns (outcome: DrainOutcome, inactiveTgUserIds: seq<int>)
    requires |world| >= QUEUED_CALL_ATTEMPTS
    ensures outcome == Classify(queued, FinalReply(queued, world))
    ensures inactiveTgUserIds == UnreachableIn(FinalReply(queued, world))
  {
    var made, reply := InvokeQueuedWithRetry(queued, world);
    AttemptsAreDetermined(queued, world, made, AttemptsMade(queued, world));
    outcome := Classify(queued, reply);
    inactiveTgUserIds := if reply.InactiveUser? then [reply.tgUserId] else [];
  }

  lemma {:induction false} NothingAbandonedYet(calls: seq<QueuedApiCall>, outcomes: seq<DrainOutcome>,
      ds: seq<Disposition>)
    requires SoFar(calls, outcomes, ds)
    ensures Count(ds, Abandoned) == 0
  {
    if ds != [] {
      var n := |ds| - 1;
      forall i | 0 <= i < n
        ensures ds[..n][i] == Turn(calls[i], outcomes[i], ds[..n][..i])
      {
        assert ds[..n][..i] == ds[..i];
      }
      forall s | 0 <= s < n
        ensures !DeadAt(ds[..n], s)
      {
        DeadAtPrefix(ds, n, s);
      }
      NothingAbandonedYet(calls, outcomes, ds[..n]);
    }
  }

  lemma {:induction false} AbandonedTail(calls: seq<QueuedApiCall>, world: seq<seq<Attempt>>, ran: seq<Disposition>,
      n: nat)
    requires Scripted(calls, world) && |ran| + n <= |calls|
    ensures Count(ran + Gone(n), Abandoned) == Count(ran, Abandoned) + n
    ensures forall d | d != Abandoned :: Count(ran + Gone(n), d) == Count(ran, d)
    ensures SkippedIds(calls, ran + Gone(n)) == SkippedIds(calls, ran)
    ensures Unreachable(calls, world, ran + Gone(n)) == Unreachable(calls, world, ran)
  {
    var all := ran + Gone(n);
    if n == 0 {
      assert all == ran;
    } else {
      assert all[..|all| - 1] == ran + Gone(n - 1);
      AbandonedTail(calls, world, ran, n - 1);
    }
  }

  // The skipped ids are those of the skipped edits, one each, in queue order.
  lemma {:induction false} SkippedIdsAre(calls: seq<QueuedApiCall>, ds: seq<Disposition>, i: nat)
    requires i < |ds| <= |calls| && forall k | 0 <= k < |ds| :: ds[k] == Skipped ==> calls[k].inlineMessageId.Some?
    requires ds[i] == Skipped
    ensures var place := Count(ds[..i], Skipped);
            |SkippedIds(calls, ds)| == Count(ds, Skipped) > place
                && SkippedIds(calls, ds)[place] == calls[i].inlineMessageId.value
  {
    var n := |ds| - 1;
    SkippedIdsCount(calls, ds);
    SkippedIdsCount(calls, ds[..n]);
    if i < n {
      SkippedIdsAre(calls, ds[..n], i);
      assert ds[..n][..i] == ds[..i];
    }
  }

  lemma {:induction false} SkippedIdsCount(calls: seq<QueuedApiCall>, ds: seq<Disposition>)
    requires |ds| <= |calls| && forall k | 0 <= k < |ds| :: ds[k] == Skipped ==> calls[k].inlineMessageId.Some?
    ensures |SkippedIds(calls, ds)| == Count(ds, Skipped)
  {
    if ds != [] {
      SkippedIdsCount(calls, ds[..|ds| - 1]);
    }
  }

  // A user is noted as unreachable exactly when the final answer to a call that ran says so.
  lemma {:induction false} UnreachableAre(calls: seq<QueuedApiCall>, world: seq<seq<Attempt>>, ds: seq<Disposition>,
      user: int)
    requires Scripted(calls, world) && |ds| <= |calls|
    ensures user in Unreachable(calls, world, ds)
       <==> exists i | 0 <= i < |ds| :: ds[i].Ran? && FinalReply(calls[i], world[i]) == InactiveUser(user)
  {
    if ds != [] {
      var n := |ds| - 1;
      UnreachableAre(calls, world, ds[..n], user);
      assert forall i | 0 <= i < n :: ds[..n][i] == ds[i];
    }
  }

  // Nothing is lost from the account: queued = sent + failed + skipped + abandoned.
  lemma {:induction false} EveryCallIsAccountedFor(calls: seq<QueuedApiCall>, ds: seq<Disposition>)
    requires |ds| <= |calls| && forall i | 0 <= i < |ds| :: ds[i] == Skipped ==> calls[i].inlineMessageId.Some?
    ensures |ds| == Count(ds, Ran(Sent)) + Count(ds, Ran(Failed)) + Count(ds, Ran(NetworkFailed))
        + Count(ds, Ran(InlineEditTimedOut))
                    + |SkippedIds(calls, ds)| + Count(ds, Abandoned)
  {
    if ds != [] {
      EveryCallIsAccountedFor(calls, ds[..|ds| - 1]);
      match ds[|ds| - 1] {
        case Ran(Sent) =>
        case Ran(Failed) =>
        case Ran(NetworkFailed) =>
        case Ran(InlineEditTimedOut) =>
        case Skipped =>
        case Abandoned =>
      }
    }
  }

  // The count only passes the limit on a network failure.
  lemma NetworkDeadNow(ds: seq<Disposition>, outcome: DrainOutcome, calls: seq<QueuedApiCall>,
      outcomes: seq<DrainOutcome>)
    requires SoFar(calls, outcomes, ds)
    requires NetworkRun(ds + [Ran(outcome)]) >= DRAIN_NETWORK_FAILURE_LIMIT
    ensures outcome == NetworkFailed
  {
    assert (ds + [Ran(outcome)])[..|ds|] == ds;
    if outcome == InlineEditTimedOut {
      var a := RunHasLast(ds);
      assert ds[..a + 1][..a] == ds[..a];
      DeadAtIsThreeInARow(ds, a);
    }
  }
}
