// The retry-after limiter (libs/telegram/mitup_bot/rate_limiter.py): which pause a request waits on, the
// pruned map of pauses, and the loop that retries a throttled request.
module RateLimiter {
  import opened Wrappers
  import Decimal

  const RETRY_AFTER_GRACE := 0.1

  // ---- Keys ----

  datatype RequestScope = Chat | Group | InlineMessage | Unkeyed

  datatype ChatId = Number(int) | Username(string)

  datatype RequestKey = RequestKey(scope: RequestScope, chatId: Option<ChatId>)

  type PauseKey = k: RequestKey | k.scope != Unkeyed witness RequestKey(InlineMessage, None)

  function PauseKeyOf(key: RequestKey): Option<PauseKey> {
    if key.scope == Unkeyed then None else Some(key)
  }

  // A chat id as a request carries it: a number, or a string that may hold one.
  function Coerced(chatId: ChatId): ChatId {
    match chatId
    case Number(_) => chatId
    case Username(s) => match Decimal.ReadInt(s) case Some(n) => Number(n) case None => chatId
  }

  function RequestKeyOf(chatId: Option<ChatId>, inline: bool): (key: RequestKey)
    ensures key.scope == Chat <==> chatId.Some? && exists n: nat :: Coerced(chatId.value) == Number(n)
    ensures key.scope == Group ==> chatId.Some? && key.chatId == Some(Coerced(chatId.value))
    ensures key.scope == InlineMessage <==> chatId.None? && inline
  {
    match chatId
    case None => RequestKey(if inline then InlineMessage else Unkeyed, None)
    case Some(id) =>
      var coerced := Coerced(id);
      var addressesGroup := match coerced case Number(n) => n < 0 case Username(_) => true;
      RequestKey(if addressesGroup then Group else Chat, Some(coerced))
  }

  // Two requests to a chat share a pause exactly when their ids name the same chat, and never with an
  // inline edit; only a request with no recipient belongs to no key.
  lemma KeysSeparateChats(a: ChatId, b: ChatId, inline: bool, inline': bool)
    ensures RequestKeyOf(Some(a), inline) == RequestKeyOf(Some(b), inline') <==> Coerced(a) == Coerced(b)
    ensures PauseKeyOf(RequestKeyOf(Some(a), inline)) == PauseKeyOf(RequestKeyOf(Some(b), inline')) <==>
              Coerced(a) == Coerced(b)
    ensures PauseKeyOf(RequestKeyOf(Some(a), inline)) != PauseKeyOf(RequestKeyOf(None, inline'))
    ensures PauseKeyOf(RequestKeyOf(Some(a), inline)).Some?
    ensures (PauseKeyOf(RequestKeyOf(None, inline)).Some? <==> inline)
  {
  }

  // A chat id written out as a string names the same chat as the number.
  lemma SpellingDoesNotMatter(n: int, inline: bool)
    ensures RequestKeyOf(Some(Username(Decimal.PrintInt(n))), inline) == RequestKeyOf(Some(Number(n)), inline)
    ensures Coerced(Number(n)) == Number(n)
    ensures forall s :: Decimal.ReadInt(s).None? ==> Coerced(Username(s)) == Username(s)
  {
    Decimal.ReadPrintInt(n);
  }

  // ---- The full history of 429s ----

  datatype Hold = Held(key: Option<PauseKey>, at: real, seconds: real)

  function Max(a: real, b: real): real {
    if a >= b then a else b
  }

  // The latest deadline any hold set for `key`, where no key stands for the holds over everything.
  function Deadline(history: seq<Hold>, key: Option<PauseKey>): real {
    if history == [] then 0.0
    else
      var last := history[|history| - 1];
      var before := Deadline(history[..|history| - 1], key);
      if last.key == key then Max(before, last.at + last.seconds) else before
  }

  // When `key` may fire if nothing is forgotten.
  function ClearAt(history: seq<Hold>, key: Option<PauseKey>): real {
    Max(Deadline(history, key), Deadline(history, None))
  }

  lemma {:induction false} ClearAtCoversEveryHold(history: seq<Hold>, key: Option<PauseKey>, i: nat)
    requires i < |history| && (history[i].key == key || history[i].key.None?)
    ensures ClearAt(history, key) >= history[i].at + history[i].seconds
  {
    var n := |history| - 1;
    if i < n {
      ClearAtCoversEveryHold(history[..n], key, i);
    }
  }

  // The wait is no longer than some hold asked for.
  lemma {:induction false} ClearAtIsSomeHold(history: seq<Hold>, key: Option<PauseKey>)
    ensures ClearAt(history, key) == 0.0
      || exists i | 0 <= i < |history| ::
           (history[i].key == key || history[i].key.None?)
               && history[i].at + history[i].seconds == ClearAt(history, key)
  {
    if history != [] {
      var n := |history| - 1;
      ClearAtIsSomeHold(history[..n], key);
      if i :| 0 <= i < n && (history[..n][i].key == key || history[..n][i].key.None?)
              && history[..n][i].at + history[..n][i].seconds == ClearAt(history[..n], key) {
        assert history[i] == history[..n][i];
      }
      assert history[n] == history[n];
    }
  }

  // A hold for one key leaves every other key's wait alone, and never shortens its own.
  lemma HoldTouchesOnlyItsKey(history: seq<Hold>, hold: Hold, key: Option<PauseKey>)
    ensures hold.key.Some? && hold.key != key ==> ClearAt(history + [hold], key) == ClearAt(history, key)
    ensures ClearAt(history + [hold], key) >= ClearAt(history, key)
  {
    DeadlineAppends(history, hold);
  }

  // ---- The pruned map ----

  lemma DeadlineAppends(history: seq<Hold>, hold: Hold)
    ensures forall key :: Deadline(history + [hold], key) ==
              if hold.key == key then Max(Deadline(history, key), hold.at + hold.seconds) else Deadline(history, key)
  {
    assert (history + [hold])[..|history|] == history;
  }

  // The deadline the map holds for a key, and the one the full history has, are equal or both passed.
  predicate Agrees(entry: real, full: real, clock: real) {
    entry == full || (entry <= clock && full <= clock)
  }

  function Entry(deadlines: map<PauseKey, real>, k: PauseKey): real {
    if k in deadlines then deadlines[k] else 0.0
  }

  ghost predicate Tells(deadlines: map<PauseKey, real>, history: seq<Hold>, clock: real) {
    forall k: PauseKey :: Agrees(Entry(deadlines, k), Deadline(history, Some(k)), clock)
  }

  lemma HoldTells(deadlines: map<PauseKey, real>, history: seq<Hold>, clock: real, hold: Hold)
    requires Tells(deadlines, history, clock)
    ensures hold.key.None? ==> Tells(deadlines, history + [hold], clock)
    ensures hold.key.Some? ==>
              var raised := Max(Entry(deadlines, hold.key.value), hold.at + hold.seconds);
              Tells(deadlines[hold.key.value := raised], history + [hold], clock)
  {
    DeadlineAppends(history, hold);
  }

  lemma PrunedTells(deadlines: map<PauseKey, real>, history: seq<Hold>, clock: real)
    requires Tells(deadlines, history, clock) && clock >= 0.0
    ensures Tells(map k | k in deadlines && deadlines[k] > clock :: deadlines[k], history, clock)
  {
    var pruned := map k | k in deadlines && deadlines[k] > clock :: deadlines[k];
    forall k: PauseKey
      ensures Agrees(Entry(pruned, k), Deadline(history, Some(k)), clock)
    {
      assert Agrees(Entry(deadlines, k), Deadline(history, Some(k)), clock);
    }
  }

  class RetryAfterPauses {
    var deadlines: map<PauseKey, real>
    var globalDeadline: real
    // What the monotonic clock shows.
    var clock: real
    ghost var history: seq<Hold>

    constructor (now: real)
      requires now >= 0.0
      ensures Valid() && clock == now && history == [] && fresh(this)
    {
      deadlines, globalDeadline, clock, history := map[], 0.0, now, [];
    }

    ghost predicate Valid()
      reads this
    {
      clock >= 0.0 && globalDeadline == Deadline(history, None) && Tells(deadlines, history, clock)
    }

    function Remaining(key: Option<PauseKey>): (seconds: real)
      reads this
      ensures Valid() ==> (seconds > 0.0 <==> ClearAt(history, key) > clock)
      ensures Valid() && seconds > 0.0 ==> seconds == ClearAt(history, key) - clock
    {
      var keyed := if key.Some? then Entry(deadlines, key.value) else 0.0;
      Max(keyed, globalDeadline) - clock
    }

    method Elapse(seconds: real)
      requires Valid() && seconds >= 0.0
      modifies this`clock
      ensures Valid() && clock == old(clock) + seconds
    {
      clock := clock + seconds;
    }

    method Hold(key: Option<PauseKey>, seconds: real)
      requires Valid()
      modifies this`deadlines, this`globalDeadline, this`history
      ensures Valid() && history == old(history) + [Held(key, clock, seconds)]
      ensures forall k :: k in deadlines.Keys && Some(k) != key ==> deadlines[k] > clock
    {
      Prune();
      ghost var hold := Held(key, clock, seconds);
      HoldTells(deadlines, history, clock, hold);
      DeadlineAppends(history, hold);
      history := history + [hold];
      var deadline := clock + seconds;
      if key.None? {
        globalDeadline := Max(globalDeadline, deadline);
        return;
      }
      deadlines := deadlines[key.value := Max(Entry(deadlines, key.value), deadline)];
    }

    // Forgets the pauses that have passed, and nothing else.
    method Prune()
      requires Valid()
      modifies this`deadlines
      ensures Valid() && deadlines == map k | k in old(deadlines) && old(deadlines)[k] > clock :: old(deadlines)[k]
    {
      PrunedTells(deadlines, history, clock);
      deadlines := map k | k in deadlines && deadlines[k] > clock :: deadlines[k];
    }
  }

  // ---- The retry loop ----

  // What other tasks do to the pauses: `after` seconds later, one of them is throttled.
  datatype Foreign = Foreign(after: real, key: Option<PauseKey>, seconds: real)

  // One sleep of the wait: others are throttled meanwhile, and the task wakes no earlier than asked.
  datatype Nap = Nap(meanwhile: seq<Foreign>, overslept: real)

  datatype Response = Success | Throttled(retryAfter: real) | OtherFailure

  // One turn of the loop as the world decides it: the sleeps, the buckets and the call itself.
  datatype Turn = Turn(naps: seq<Nap>, meanwhile: seq<Foreign>, response: Response)

  datatype Outcome = Returned | RaisedRetryAfter | RaisedOther | StillWaiting

  // One run of the callback: handed to the buckets, and answered.
  datatype Attempt = Attempt(handedOff: real, answered: real, response: Response)

  predicate Forward(meanwhile: seq<Foreign>) {
    forall i | 0 <= i < |meanwhile| :: meanwhile[i].after >= 0.0
  }

  predicate ForwardNaps(naps: seq<Nap>) {
    forall i | 0 <= i < |naps| :: Forward(naps[i].meanwhile) && naps[i].overslept >= 0.0
  }

  predicate ForwardTurns(turns: seq<Turn>) {
    forall i | 0 <= i < |turns| :: ForwardNaps(turns[i].naps) && Forward(turns[i].meanwhile)
  }

  // Every 429 so far is held, and each attempt after one waited it out.
  ghost predicate Paced(attempts: seq<Attempt>, key: Option<PauseKey>, history: seq<Hold>) {
    && (forall i | 0 <= i < |attempts| && attempts[i].response.Throttled? ::
          Held(key, attempts[i].answered, attempts[i].response.retryAfter + RETRY_AFTER_GRACE) in history)
    && (forall i | 0 <= i < |attempts| - 1 ::
          attempts[i].response.Throttled?
          && attempts[i + 1].handedOff >= attempts[i].answered + attempts[i].response.retryAfter + RETRY_AFTER_GRACE)
    && forall i | 0 <= i < |attempts| :: attempts[i].handedOff <= attempts[i].answered
  }

  // Every attempt was handed off no earlier than the pauses held by then allow, whoever they were held
  // for: `seen` is the history at each hand-off, `before` that at the start.
  ghost predicate WaitedOut(attempts: seq<Attempt>, key: Option<PauseKey>, before: seq<Hold>, seen: seq<seq<Hold>>,
      history: seq<Hold>) {
    && |seen| == |attempts|
    && forall i | 0 <= i < |attempts| :: before <= seen[i] <= history && attempts[i].handedOff >= ClearAt(seen[i], key)
  }

  lemma PaceOutlasts(attempts: seq<Attempt>, key: Option<PauseKey>, before: seq<Hold>, seen: seq<seq<Hold>>,
                     history: seq<Hold>, after: seq<Hold>)
    requires WaitedOut(attempts, key, before, seen, history) && Paced(attempts, key, history) && history <= after
    ensures WaitedOut(attempts, key, before, seen, after) && Paced(attempts, key, after)
  {
  }

  lemma WaitedOutExtends(attempts: seq<Attempt>, a: Attempt, key: Option<PauseKey>, before: seq<Hold>,
      seen: seq<seq<Hold>>, history: seq<Hold>, after: seq<Hold>)
    requires WaitedOut(attempts, key, before, seen, history) && before <= history <= after
    requires a.handedOff >= ClearAt(history, key)
    ensures WaitedOut(attempts + [a], key, before, seen + [history], after)
  {
  }

  // In particular a pause held before the request began delays even its first attempt.
  lemma EarlierHoldDelaysEveryAttempt(attempts: seq<Attempt>, key: Option<PauseKey>, before: seq<Hold>,
      seen: seq<seq<Hold>>, history: seq<Hold>, hold: Hold, i: nat)
    requires WaitedOut(attempts, key, before, seen, history) && i < |attempts|
    requires hold in before && (hold.key == key || hold.key.None?)
    ensures attempts[i].handedOff >= hold.at + hold.seconds
  {
    var k :| 0 <= k < |before| && before[k] == hold;
    assert seen[i][k] == hold;
    ClearAtCoversEveryHold(seen[i], key, k);
  }

  // An attempt handed off once the key is clear keeps the pace.
  lemma PacedExtends(attempts: seq<Attempt>, a: Attempt, key: Option<PauseKey>, history: seq<Hold>, after: seq<Hold>)
    requires Paced(attempts, key, history) && history <= after
        && forall i | 0 <= i < |attempts| :: attempts[i].response.Throttled?
    requires ClearAt(history, key) <= a.handedOff <= a.answered
    requires a.response.Throttled? ==> Held(key, a.answered, a.response.retryAfter + RETRY_AFTER_GRACE) in after
    ensures Paced(attempts + [a], key, after)
  {
    if attempts != [] {
      var last := attempts[|attempts| - 1];
      var hold := Held(key, last.answered, last.response.retryAfter + RETRY_AFTER_GRACE);
      var k :| 0 <= k < |history| && history[k] == hold;
      ClearAtCoversEveryHold(history, key, k);
    }
    var all := attempts + [a];
    forall i | 0 <= i < |all| && all[i].response.Throttled?
      ensures Held(key, all[i].answered, all[i].response.retryAfter + RETRY_AFTER_GRACE) in after
    {
      if i < |attempts| {
        assert all[i] == attempts[i];
      }
    }
  }

  function MaxRetries(rateLimitArgs: Option<int>, configured: int): (allowed: int)
    ensures rateLimitArgs.Some? && rateLimitArgs.value != 0 ==> allowed == rateLimitArgs.value
    ensures rateLimitArgs in {None, Some(0)} ==> allowed == configured
  {
    if rateLimitArgs.Some? && rateLimitArgs.value != 0 then rateLimitArgs.value else configured
  }

  class MitupRateLimiter {
    const pauses: RetryAfterPauses
    const maxRetries: int

    constructor (maxRetries: int, now: real)
      requires now >= 0.0
      ensures pauses.Valid() && pauses.history == [] && pauses.clock == now && this.maxRetries == maxRetries
    {
      this.maxRetries := maxRetries;
      pauses := new RetryAfterPauses(now);
    }

    method Others(meanwhile: seq<Foreign>)
      requires pauses.Valid() && Forward(meanwhile)
      modifies pauses
      ensures pauses.Valid() && pauses.clock >= old(pauses.clock)
      ensures old(pauses.history) <= pauses.history
    {
      var i := 0;
      while i < |meanwhile|
        invariant 0 <= i <= |meanwhile| && pauses.Valid() && pauses.clock >= old(pauses.clock)
        invariant old(pauses.history) <= pauses.history
      {
        pauses.Elapse(meanwhile[i].after);
        pauses.Hold(meanwhile[i].key, meanwhile[i].seconds);
        i := i + 1;
      }
    }

    // Sleeps until the key is clear, re-reading the deadline after each sleep.
    method Wait(key: Option<PauseKey>, naps: seq<Nap>) returns (clear: bool)
      requires pauses.Valid() && ForwardNaps(naps)
      modifies pauses
      ensures pauses.Valid() && pauses.clock >= old(pauses.clock)
      ensures old(pauses.history) <= pauses.history
      ensures clear ==> ClearAt(pauses.history, key) <= pauses.clock
    {
      var i := 0;
      while pauses.Remaining(key) > 0.0
        invariant 0 <= i <= |naps| && pauses.Valid() && pauses.clock >= old(pauses.clock)
        invariant old(pauses.history) <= pauses.history
        decreases |naps| - i
      {
        if i == |naps| {
          return false;
        }
        var wake := pauses.clock + pauses.Remaining(key);
        Others(naps[i].meanwhile);
        if pauses.clock < wake {
          pauses.Elapse(wake - pauses.clock);
        }
        pauses.Elapse(naps[i].overslept);
        i := i + 1;
      }
      clear := true;
    }

    method OnThrottled(key: RequestKey, retryAfter: real)
      requires pauses.Valid()
      modifies pauses
      ensures pauses.Valid() && pauses.clock == old(pauses.clock)
      ensures pauses.history == old(pauses.history) + [Held(PauseKeyOf(key), pauses.clock, retryAfter + 0.1)]
    {
      pauses.Hold(PauseKeyOf(key), retryAfter + RETRY_AFTER_GRACE);
    }

    // The loop runs the callback at most `max_retries + 1` times, holds a pause for every 429 including the
    // one it gives up on, and hands no attempt to the buckets before every pause held over its key.
    method ProcessRequest(chatId: Option<ChatId>, inline: bool, rateLimitArgs: Option<int>, turns: seq<Turn>)
      returns (outcome: Outcome, attempts: seq<Attempt>, ghost seen: seq<seq<Hold>>)
      requires pauses.Valid() && ForwardTurns(turns)
      modifies pauses
      ensures pauses.Valid() && old(pauses.history) <= pauses.history
      ensures WaitedOut(attempts, PauseKeyOf(RequestKeyOf(chatId, inline)), old(pauses.history), seen, pauses.history)
      ensures Paced(attempts, PauseKeyOf(RequestKeyOf(chatId, inline)), pauses.history)
      ensures var allowed := if rateLimitArgs in {None, Some(0)} then maxRetries else rateLimitArgs.value;
              && (allowed >= 0 ==> |attempts| <= allowed + 1)
              && (outcome == RaisedRetryAfter
                  <==> |attempts| == allowed + 1 && |attempts| > 0 && attempts[|attempts| - 1].response.Throttled?)
      ensures outcome == Returned <==> |attempts| > 0 && attempts[|attempts| - 1].response == Success
      ensures outcome == RaisedOther <==> |attempts| > 0 && attempts[|attempts| - 1].response == OtherFailure
    {
      var key := RequestKeyOf(chatId, inline);
      var allowed := MaxRetries(rateLimitArgs, maxRetries);
      var attempt := 0;
      attempts, seen := [], [];
      while attempt < |turns|
        invariant 0 <= attempt <= |turns| && attempt == |attempts| && pauses.Valid()
        invariant old(pauses.history) <= pauses.history
        invariant Paced(attempts, PauseKeyOf(key), pauses.history)
        invariant WaitedOut(attempts, PauseKeyOf(key), old(pauses.history), seen, pauses.history)
        invariant forall i | 0 <= i < |attempts| :: attempts[i].response.Throttled?
        invariant allowed >= 0 ==> |attempts| <= allowed
      {
        var turn := turns[attempt];
        ghost var held := pauses.history;
        var clear := Wait(PauseKeyOf(key), turn.naps);
        PaceOutlasts(attempts, PauseKeyOf(key), old(pauses.history), seen, held, pauses.history);
        if !clear {
          return StillWaiting, attempts, seen;
        }
        ghost var history := pauses.history;
        var answered := RunRequest(key, turn);
        PacedExtends(attempts, answered, PauseKeyOf(key), history, pauses.history);
        WaitedOutExtends(attempts, answered, PauseKeyOf(key), old(pauses.history), seen, history, pauses.history);
        attempts := attempts + [answered];
        seen := seen + [history];
        match answered.response
        case Success => return Returned, attempts, seen;
        case OtherFailure => return RaisedOther, attempts, seen;
        case Throttled(_) =>
          if attempt == allowed {
            return RaisedRetryAfter, attempts, seen;
          }
          attempt := attempt + 1;
      }
      outcome := StillWaiting;
    }

    // Hands the request to the buckets and holds the pause if the answer is a 429.
    method RunRequest(key: RequestKey, turn: Turn) returns (a: Attempt)
      requires pauses.Valid() && Forward(turn.meanwhile)
      modifies pauses
      ensures pauses.Valid() && pauses.clock >= old(pauses.clock) && old(pauses.history) <= pauses.history
      ensures a == Attempt(old(pauses.clock), pauses.clock, turn.response)
      ensures a.response.Throttled?
          ==> Held(PauseKeyOf(key), a.answered, a.response.retryAfter + RETRY_AFTER_GRACE) in pauses.history
    {
      var handedOff := pauses.clock;
      Others(turn.meanwhile);
      a := Attempt(handedOff, pauses.clock, turn.response);
      if turn.response.Throttled? {
        OnThrottled(key, turn.response.retryAfter);
      }
    }
  }
}
