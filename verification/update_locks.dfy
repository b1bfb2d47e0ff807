// The update processor that runs the updates of one (user, chat) key one at a time, through a table
// of reference-counted locks created and dropped on the fly
// (apps/bot/mitup_bot/update_processor.py). `Lines` is what it is meant to amount to: one permanent
// first-come-first-served line per key.
module UpdateLocks {
  import opened Wrappers

  type LockKey = (Option<int>, Option<int>)

  // Anything can be fed into the update queue; only a Telegram update names a user or a chat.
  datatype Update = TelegramUpdate(user: Option<int>, chat: Option<int>) | OtherObject

  function UpdateLockKey(update: Update): (key: Option<LockKey>)
    ensures key.Some? <==> update.TelegramUpdate? && (update.user.Some? || update.chat.Some?)
    ensures key.Some? ==> key.value == (update.user, update.chat)
  {
    match update
    case OtherObject => None
    case TelegramUpdate(user, chat) => if user.None? && chat.None? then None else Some((user, chat))
  }

  // Updates are numbered as they arrive.
  type Ticket = nat

  // ---- The lines ----

  // The in-flight updates of one key in arrival order; the first of them is running or about to.
  datatype Line = Line(tickets: seq<Ticket>, running: bool)

  datatype Start = Start(key: LockKey, ticket: Ticket)

  datatype Lines = Lines(lines: map<LockKey, Line>, next: Ticket, started: seq<Start>)

  datatype Action =
    | Arrived(lockKey: Option<LockKey>)
    | Granted(key: LockKey)
    | Ended(key: LockKey)
    | Abandoned(key: LockKey, ticket: Ticket)

  predicate Possible(s: Lines, a: Action) {
    match a
    case Arrived(_) => true
    case Granted(key) => key in s.lines && !s.lines[key].running && s.lines[key].tickets != []
    case Ended(key) => key in s.lines && s.lines[key].running && s.lines[key].tickets != []
    case Abandoned(key, ticket) =>
      && key in s.lines
      && ticket in s.lines[key].tickets
      && (s.lines[key].running ==> ticket != s.lines[key].tickets[0])
  }

  function Without(tickets: seq<Ticket>, ticket: Ticket): seq<Ticket> {
    if tickets == [] then []
    else if tickets[0] == ticket then tickets[1..]
    else [tickets[0]] + Without(tickets[1..], ticket)
  }

  // A line nobody stands in any more is dropped.
  function SetLine(lines: map<LockKey, Line>, key: LockKey, line: Line): map<LockKey, Line> {
    if line.tickets == [] then lines - {key} else lines[key := line]
  }

  function Advance(s: Lines, a: Action): Lines
    requires Possible(s, a)
  {
    match a
    case Arrived(None) => s.(next := s.next + 1)
    case Arrived(Some(key)) =>
      if key in s.lines then
        s.(lines := s.lines[key := s.lines[key].(tickets := s.lines[key].tickets + [s.next])], next := s.next + 1)
      else
        s.(lines := s.lines[key := Line([s.next], true)], next := s.next + 1,
            started := s.started + [Start(key, s.next)])
    case Granted(key) =>
      s.(lines := s.lines[key := s.lines[key].(running := true)],
          started := s.started + [Start(key, s.lines[key].tickets[0])])
    case Ended(key) =>
      s.(lines := SetLine(s.lines, key, Line(s.lines[key].tickets[1..], false)))
    case Abandoned(key, ticket) =>
      s.(lines := SetLine(s.lines, key, s.lines[key].(tickets := Without(s.lines[key].tickets, ticket))))
  }

  ghost predicate Steps(s: Lines, a: Action, after: Lines) {
    Possible(s, a) && after == Advance(s, a)
  }

  lemma EndedLine(s: Lines, after: Lines, key: LockKey, tickets: seq<Ticket>)
    requires key in s.lines && s.lines[key] == Line(tickets, true) && tickets != []
    requires after == Lines(SetLine(s.lines, key, Line(tickets[1..], false)), s.next, s.started)
    ensures Steps(s, Ended(key), after)
  {
  }

  ghost predicate Increasing(tickets: seq<Ticket>) {
    tickets == [] || ((forall t | t in tickets[1..] :: tickets[0] < t) && Increasing(tickets[1..]))
  }

  // A start comes before those behind it in line: it is the running head's, or that of an update
  // already gone.
  ghost predicate StartsBehindLine(s: Lines) {
    forall i | 0 <= i < |s.started| ::
      var start := s.started[i];
      && start.ticket < s.next
      && (start.key in s.lines ==>
            var line := s.lines[start.key];
            forall t | t in line.tickets ::
              start.ticket < t || (line.running && start.ticket == t && t == line.tickets[0]))
  }

  ghost predicate ServedInOrder(started: seq<Start>) {
    forall i, j | 0 <= i < j < |started| :: started[i].key == started[j].key ==> started[i].ticket < started[j].ticket
  }

  ghost predicate LinesInv(s: Lines) {
    && (forall key | key in s.lines :: s.lines[key].tickets != [] && Increasing(s.lines[key].tickets))
    && (forall key | key in s.lines :: forall ticket | ticket in s.lines[key].tickets :: ticket < s.next)
    && StartsBehindLine(s)
    && ServedInOrder(s.started)
    && HeadsStarted(s)
  }

  ghost predicate HeadsStarted(s: Lines) {
    forall key | key in s.lines && s.lines[key].running && s.lines[key].tickets != [] ::
      Start(key, s.lines[key].tickets[0]) in s.started
  }

  lemma {:induction false} IncreasingAppend(tickets: seq<Ticket>, last: Ticket)
    requires Increasing(tickets) && forall t | t in tickets :: t < last
    ensures Increasing(tickets + [last])
  {
    var all := tickets + [last];
    if tickets != [] {
      assert all[1..] == tickets[1..] + [last];
      assert tickets[0] in tickets;
      assert forall t | t in tickets[1..] :: t in tickets;
      assert forall t :: t in all[1..] <==> t in tickets[1..] || t == last;
      IncreasingAppend(tickets[1..], last);
    } else {
      assert all[1..] == [];
    }
  }

  lemma {:induction false} WithoutKeepsOrder(tickets: seq<Ticket>, ticket: Ticket)
    requires Increasing(tickets)
    ensures Increasing(Without(tickets, ticket))
    ensures forall t :: t in Without(tickets, ticket) <==> t in tickets && t != ticket
    ensures |Without(tickets, ticket)| == |tickets| - if ticket in tickets then 1 else 0
  {
    if tickets != [] {
      var first, rest := tickets[0], tickets[1..];
      WithoutKeepsOrder(rest, ticket);
      assert forall t :: t in tickets <==> t == first || t in rest;
      if first != ticket {
        var left := Without(tickets, ticket);
        assert left[1..] == Without(rest, ticket);
        assert forall t :: t in left <==> t == first || t in Without(rest, ticket);
      }
    }
  }

  lemma GrantKeepsLinesInv(s: Lines, key: LockKey)
    requires LinesInv(s) && Possible(s, Granted(key))
    ensures LinesInv(Advance(s, Granted(key)))
  {
    var tickets := s.lines[key].tickets;
    assert tickets[0] in tickets;
    assert forall t :: t in tickets <==> t == tickets[0] || t in tickets[1..];
  }

  lemma AdvanceKeepsLinesInv(s: Lines, a: Action)
    requires LinesInv(s) && Possible(s, a)
    ensures LinesInv(Advance(s, a))
  {
    match a
    case Arrived(None) =>
    case Arrived(Some(key)) =>
      ArrivalKeepsLinesInv(s, key);
    case Granted(key) => GrantKeepsLinesInv(s, key);
    case Ended(key) =>
      var tickets := s.lines[key].tickets;
      assert forall t | t in tickets[1..] :: t in tickets && tickets[0] < t;
    case Abandoned(key, ticket) =>
      WithoutKeepsOrder(s.lines[key].tickets, ticket);
  }

  lemma ArrivalKeepsLinesInv(s: Lines, key: LockKey)
    requires LinesInv(s)
    ensures LinesInv(Advance(s, Arrived(Some(key))))
  {
    if key in s.lines {
      IncreasingAppend(s.lines[key].tickets, s.next);
    } else {
      assert [s.next][1..] == [];
    }
  }

  ghost predicate Runs(s: Lines, actions: seq<Action>)
    decreases |actions|
  {
    actions == [] || (Possible(s, actions[0]) && Runs(Advance(s, actions[0]), actions[1..]))
  }

  ghost function AfterActions(s: Lines, actions: seq<Action>): Lines
    requires Runs(s, actions)
    decreases |actions|
  {
    if actions == [] then s else AfterActions(Advance(s, actions[0]), actions[1..])
  }

  const EMPTY := Lines(map[], 0, [])

  // In every reachable state the updates of each key have been started in the order they arrived,
  // whatever was cancelled while waiting.
  lemma ServedInArrivalOrder(actions: seq<Action>)
    requires Runs(EMPTY, actions)
    ensures ServedInOrder(AfterActions(EMPTY, actions).started)
  {
    ReachableLines(EMPTY, actions);
  }

  // Of the updates in a line exactly the head that runs has been started: nobody else in flight has, and
  // whoever was started before is gone.
  lemma OnlyTheRunningHeadHasStarted(actions: seq<Action>, key: LockKey, ticket: Ticket)
    requires Runs(EMPTY, actions)
    requires var s := AfterActions(EMPTY, actions); key in s.lines && ticket in s.lines[key].tickets
    ensures var s := AfterActions(EMPTY, actions);
            Start(key, ticket) in s.started <==> s.lines[key].running && ticket == s.lines[key].tickets[0]
  {
    ReachableLines(EMPTY, actions);
  }

  // An update stands in its line from its arrival until it has run and ended, or has given up; nothing else
  // removes it, and no step moves another line.
  lemma LeavesOnlyByEndingOrGivingUp(s: Lines, a: Action, key: LockKey, ticket: Ticket)
    requires LinesInv(s) && Possible(s, a) && key in s.lines && ticket in s.lines[key].tickets
    ensures var after := Advance(s, a);
            var gone := (a == Ended(key) && s.lines[key].running && ticket == s.lines[key].tickets[0])
                || a == Abandoned(key, ticket);
            gone <==> !(key in after.lines && ticket in after.lines[key].tickets)
  {
    var tickets := s.lines[key].tickets;
    match a
    case Arrived(_) =>
    case Granted(_) =>
    case Ended(_) =>
      HeadAndRest(tickets);
    case Abandoned(_, other) =>
      WithoutKeepsOrder(tickets, other);
  }

  // An arrival joins its line at the end, and starts at once exactly when nobody else is in it.
  lemma ArrivalJoinsAtTheEnd(s: Lines, key: LockKey)
    ensures var after := Advance(s, Arrived(Some(key)));
            && key in after.lines && after.next == s.next + 1
            && after.lines[key].tickets == (if key in s.lines then s.lines[key].tickets else []) + [s.next]
            && (forall other | other != key :: other in after.lines <==> other in s.lines)
            && (forall other | other != key && other in s.lines :: after.lines[other] == s.lines[other])
            && after.started == s.started + (if key in s.lines then [] else [Start(key, s.next)])
            && (key !in s.lines ==> after.lines[key].running)
  {
  }

  lemma {:induction false} ReachableLines(s: Lines, actions: seq<Action>)
    requires LinesInv(s) && Runs(s, actions)
    ensures LinesInv(AfterActions(s, actions))
    decreases |actions|
  {
    if actions != [] {
      AdvanceKeepsLinesInv(s, actions[0]);
      ReachableLines(Advance(s, actions[0]), actions[1..]);
    }
  }

  // ---- The lock table ----

  // An entry of the table: a FIFO asyncio lock and the number of updates holding a reference to it.
  class KeyedLock {
    var holder: Option<Ticket>
    var queue: seq<Ticket>
    var waiters: nat

    constructor ()
      ensures holder == None && queue == [] && waiters == 0
    {
      holder, queue, waiters := None, [], 0;
    }

    // Everyone with a reference to the entry: the holder, then those queueing for the lock.
    function Tickets(): seq<Ticket>
      reads this
    {
      (if holder.Some? then [holder.value] else []) + queue
    }

    // The reference is counted and the lock asked for in one step: a free lock nobody queues for is
    // taken at once.
    method Enter(ticket: Ticket)
      modifies this
      ensures Tickets() == old(Tickets()) + [ticket] && waiters == old(waiters) + 1
      ensures holder == if old(Tickets()) == [] then Some(ticket) else old(holder)
    {
      waiters := waiters + 1;
      if holder.None? && queue == [] {
        holder := Some(ticket);
      } else {
        queue := queue + [ticket];
      }
    }

    // The event loop resumes the update the last release woke.
    method Wake()
      requires holder.None? && queue != []
      modifies this`holder, this`queue
      ensures Tickets() == old(Tickets()) && holder == Some(old(Tickets())[0])
    {
      holder, queue := Some(queue[0]), queue[1..];
    }

    method Release()
      requires holder.Some? && waiters > 0
      modifies this
      ensures Tickets() == old(Tickets())[1..] && holder == None && waiters == old(waiters) - 1
    {
      holder := None;
      waiters := waiters - 1;
    }

    method GiveUp(ticket: Ticket)
      requires holder != Some(ticket) && waiters > 0
      modifies this
      ensures Tickets() == Without(old(Tickets()), ticket) && holder == old(holder) && waiters == old(waiters) - 1
    {
      assert holder.Some? ==> Tickets() == [holder.value] + queue && Tickets()[1..] == queue;
      assert holder.None? ==> Tickets() == queue;
      queue := Without(queue, ticket);
      waiters := waiters - 1;
    }
  }

  // What the coroutine processing an update keeps across its awaits: the lock object it looked up when
  // it arrived, and the depth of the line it joined.
  datatype Frame = Unserialized | Serialized(key: LockKey, lock: KeyedLock, waiters: nat)

  // How an update leaves the line of its key: `left` still stands in it, and `running` says whether
  // its head still runs.
  datatype Parting = Parting(key: LockKey, ticket: Ticket, left: seq<Ticket>, running: bool)

  class PerUserUpdateProcessor {
    var locks: map<LockKey, KeyedLock>
    var frames: map<Ticket, Frame>
    var arrivals: Ticket
    ghost var started: seq<Start>

    // The coroutine's lock object is the one the table still has for its key, and it stands in its line.
    ghost predicate FrameOk(t: Ticket)
      requires t in frames
      reads this, locks.Values
    {
      && t < arrivals
      && (frames[t].Serialized? ==>
            && frames[t].key in locks
            && frames[t].lock == locks[frames[t].key]
            && t in locks[frames[t].key].Tickets())
    }

    // An entry counts exactly the updates in flight under its key, which queue in arrival order.
    ghost predicate EntryOk(k: LockKey)
      requires k in locks
      reads this, locks.Values
    {
      var tickets := locks[k].Tickets();
      && tickets != []
      && Increasing(tickets)
      && locks[k].waiters == |tickets|
      && (forall t | t in tickets :: t in frames && frames[t].Serialized? && frames[t].key == k)
    }

    ghost predicate Valid()
      reads this, locks.Values
    {
      && (forall k, k' | k in locks && k' in locks && k != k' :: locks[k] != locks[k'])
      && (forall t | t in frames :: FrameOk(t))
      && (forall k | k in locks :: EntryOk(k))
    }

    ghost function View(): Lines
      reads this, locks.Values
    {
      Lines(map k | k in locks :: Line(locks[k].Tickets(), locks[k].holder.Some?), arrivals, started)
    }

    // An update runs once its lock object says it holds it.
    predicate Running(t: Ticket)
      requires t in frames
      reads this, if frames[t].Serialized? then {frames[t].lock} else {}
    {
      frames[t].Serialized? ==> frames[t].lock.holder == Some(t)
    }

    constructor ()
      ensures Valid() && View() == EMPTY && frames == map[]
    {
      locks, frames, arrivals := map[], map[], 0;
      started := [];
    }

    // What a step on the line of `key` leaves alone.
    twostate predicate OnlyTouches(key: LockKey)
      reads this, locks.Values
    {
      && locks.Keys - {key} == old(locks.Keys) - {key}
      && (forall k | k in locks && k != key :: k in old(locks) && locks[k] == old(locks)[k] && unchanged(locks[k]))
      && (key in locks && key in old(locks) ==> locks[key] == old(locks)[key])
      && old(arrivals) <= arrivals
      && (forall t | t in frames && frames[t].Serialized? && frames[t].key != key ::
            t in old(frames) && frames[t] == old(frames[t]))
      && (forall t | t in old(frames) && old(frames[t]).Serialized? && old(frames[t]).key != key ::
            t in frames && frames[t] == old(frames[t]))
    }

    twostate lemma OthersAreOk(key: LockKey)
      requires old(Valid()) && OnlyTouches(key)
      ensures forall k | k in locks && k != key :: EntryOk(k)
      ensures forall t | t in frames && frames[t].Serialized? && frames[t].key != key :: FrameOk(t)
    {
      forall k | k in locks && k != key
        ensures EntryOk(k)
      {
        assert k in locks.Keys - {key};
        assert old(EntryOk(k));
      }
      forall t | t in frames && frames[t].Serialized? && frames[t].key != key
        ensures FrameOk(t)
      {
        assert old(FrameOk(t));
        assert frames[t].key in old(locks.Keys) - {key};
      }
    }

    twostate lemma OtherLinesStay(key: LockKey)
      requires OnlyTouches(key)
      ensures var before, after := old(View().lines), View().lines;
              after == if key in after then before[key := after[key]] else before - {key}
    {
      var before, after := old(View().lines), View().lines;
      forall k | k in locks && k != key
        ensures k in before && after[k] == before[k]
      {
      }
      forall k | k in before && k != key
        ensures k in after
      {
        assert k in locks.Keys - {key};
      }
    }

    method Arrive(update: Update) returns (ticket: Ticket)
      requires Valid()
      modifies this, locks.Values
      ensures Valid() && fresh(locks.Values - old(locks.Values))
      ensures ticket == old(arrivals) && ticket in frames && frames.Keys == old(frames.Keys) + {ticket}
      ensures Steps(old(View()), Arrived(UpdateLockKey(update)), View())
      ensures UpdateLockKey(update).Some? ==>
                && frames[ticket].Serialized? && frames[ticket].waiters == |frames[ticket].lock.Tickets()|
                && frames[ticket].key == UpdateLockKey(update).value
                && (Running(ticket) <==> frames[ticket].key !in old(locks))
      ensures UpdateLockKey(update).None? ==> frames[ticket].Unserialized?
      ensures frames == old(frames)[ticket := frames[ticket]]
    {
      ticket := arrivals;
      var key := UpdateLockKey(update);
      if key.None? {
        RunUnserialized();
        return;
      }
      Join(key.value);
    }

    twostate lemma SameLines()
      requires locks == old(locks) && forall k | k in locks :: unchanged(locks[k])
      ensures View().lines == old(View().lines)
    {
    }

    method RunUnserialized()
      requires Valid()
      modifies this`arrivals, this`frames
      ensures Valid() && frames == old(frames)[old(arrivals) := Unserialized]
      ensures Steps(old(View()), Arrived(None), View())
    {
      frames := frames[arrivals := Unserialized];
      arrivals := arrivals + 1;
      SameLines();
      FramesMayChange();
    }

    // An update that takes no lock comes or goes without the table noticing.
    twostate lemma FramesMayChange()
      requires old(Valid()) && locks == old(locks) && (forall k | k in locks :: unchanged(locks[k]))
      requires old(arrivals) <= arrivals && forall t | t in frames :: t < arrivals
      requires forall t | t in frames && frames[t].Serialized? :: t in old(frames) && frames[t] == old(frames[t])
      requires forall t | t in old(frames) && old(frames[t]).Serialized? :: t in frames && frames[t] == old(frames[t])
      ensures Valid()
    {
      assert forall k | k in locks :: old(EntryOk(k)) && EntryOk(k);
      assert forall t | t in frames && frames[t].Serialized? :: old(FrameOk(t));
    }

    method Join(key: LockKey)
      requires Valid()
      modifies this, locks.Values
      ensures Valid() && fresh(locks.Values - old(locks.Values))
      ensures frames.Keys == old(frames.Keys) + {old(arrivals)}
      ensures frames == old(frames)[old(arrivals) := frames[old(arrivals)]]
      ensures Steps(old(View()), Arrived(Some(key)), View())
      ensures var frame := frames[old(arrivals)];
              && frame.Serialized? && frame.waiters == |frame.lock.Tickets()| && frame.key == key
              && (frame.lock.holder == Some(old(arrivals)) <==> key !in old(locks))
    {
      assert key in locks ==> EntryOk(key);
      assert forall t | t in frames :: FrameOk(t);
      ghost var before := frames;
      assert key in locks && locks[key].holder.Some? ==> locks[key].holder.value == locks[key].Tickets()[0];
      Register(key);
      assert frames[old(arrivals)] == Serialized(key, locks[key], locks[key].waiters);
      assert frames == before[old(arrivals) := frames[old(arrivals)]];
      JoinedIsValid(key);
      JoinedView(key);
    }

    // The lookup, the reference count and the first step of acquiring the lock run without an await
    // between them.
    method Register(key: LockKey)
      requires forall k | k in locks && k != key :: key in locks ==> locks[k] != locks[key]
      requires key in locks ==> locks[key].waiters == |locks[key].Tickets()| && locks[key].Tickets() != []
      requires arrivals !in frames
      modifies this, if key in locks then {locks[key]} else {}
      ensures Joined(key) && fresh(locks.Values - old(locks.Values))
    {
      var keyedLock: KeyedLock;
      if key in locks {
        keyedLock := locks[key];
      } else {
        keyedLock := new KeyedLock();
        locks := locks[key := keyedLock];
      }
      ghost var tickets := keyedLock.Tickets();
      keyedLock.Enter(arrivals);
      frames := frames[arrivals := Serialized(key, keyedLock, keyedLock.waiters)];
      if tickets == [] {
        started := started + [Start(key, arrivals)];
      }
      arrivals := arrivals + 1;
    }

    // The step of `Join` on the table and the coroutine frames.
    twostate predicate Joined(key: LockKey)
      reads this, locks.Values
    {
      && OnlyTouches(key)
      && key in locks
      && (forall k | k in locks && k != key :: locks[k] != locks[key])
      && arrivals == old(arrivals) + 1
      && var tickets := if key in old(locks) then old(locks[key].Tickets()) else [];
         && locks[key].Tickets() == tickets + [old(arrivals)]
         && locks[key].waiters == |tickets| + 1
         && frames == old(frames)[old(arrivals) := Serialized(key, locks[key], |tickets| + 1)]
         && locks[key].holder == (if tickets == [] then Some(old(arrivals)) else old(locks[key].holder))
         && started == old(started) + if tickets == [] then [Start(key, old(arrivals))] else []
    }

    twostate lemma JoinedEntry(key: LockKey)
      requires old(Valid()) && Joined(key)
      ensures EntryOk(key)
    {
      var tickets := if key in old(locks) then old(locks[key].Tickets()) else [];
      assert tickets != [] ==> old(EntryOk(key));
      assert forall t | t in tickets :: old(FrameOk(t));
      IncreasingAppend(tickets, old(arrivals));
    }

    twostate lemma JoinedIsValid(key: LockKey)
      requires old(Valid()) && Joined(key)
      ensures Valid()
    {
      JoinedEntry(key);
      OthersAreOk(key);
      forall t | t in frames
        ensures FrameOk(t)
      {
        assert t != old(arrivals) ==> old(FrameOk(t));
      }
    }

    twostate lemma JoinedView(key: LockKey)
      requires old(Valid()) && Joined(key)
      ensures Steps(old(View()), Arrived(Some(key)), View())
    {
      OtherLinesStay(key);
      var before, after := old(View()), View();
      if key in old(locks) {
        assert old(EntryOk(key));
        assert after.lines[key] == before.lines[key].(tickets := before.lines[key].tickets + [before.next]);
        var tickets := before.lines[key].tickets + [before.next];
        assert after.lines == before.lines[key := before.lines[key].(tickets := tickets)];
        assert after.started == before.started;
      } else {
        assert after.lines[key] == Line([before.next], true);
        assert after.started == before.started + [Start(key, before.next)];
      }
    }

    // The event loop resumes the update at the head of a free line.
    method Grant(key: LockKey)
      requires Valid() && Possible(View(), Granted(key))
      modifies this`started, locks.Values
      ensures Valid() && locks == old(locks) && frames == old(frames)
      ensures Steps(old(View()), Granted(key), View())
      ensures locks[key].holder == Some(old(locks[key].Tickets()[0]))
    {
      assert EntryOk(key);
      started := started + [Start(key, locks[key].Tickets()[0])];
      locks[key].Wake();
      OthersAreOk(key);
      assert forall t | t in frames :: old(FrameOk(t));
      OtherLinesStay(key);
      assert View().lines[key] == old(View().lines[key]).(running := true);
    }

    // The frame of the update goes, and the entry with the last reference to it.
    twostate predicate Parted(p: Parting)
      reads this, locks.Values
    {
      && OnlyTouches(p.key)
      && p.key in old(locks) && p.ticket in old(frames)
      && frames == old(frames) - {p.ticket} && arrivals == old(arrivals) && started == old(started)
      && (p.left == [] <==> p.key !in locks)
      && (p.key in locks ==>
            && locks[p.key].Tickets() == p.left
            && locks[p.key].waiters == |p.left|
            && locks[p.key].holder.Some? == p.running)
    }

    twostate lemma PartedIsValid(p: Parting)
      requires old(Valid()) && Parted(p)
      requires old(frames[p.ticket]).Serialized? && old(frames[p.ticket]).key == p.key
      requires Increasing(p.left) && forall t :: t in p.left <==> t in old(locks[p.key].Tickets()) && t != p.ticket
      ensures Valid()
    {
      assert old(EntryOk(p.key));
      OthersAreOk(p.key);
      forall t | t in frames
        ensures FrameOk(t)
      {
        assert old(FrameOk(t));
      }
    }

    twostate lemma PartedView(p: Parting)
      requires Parted(p)
      ensures View() == Lines(SetLine(old(View()).lines, p.key, Line(p.left, p.running)), old(arrivals), old(started))
    {
      OtherLinesStay(p.key);
    }

    // The end of a running update, by returning, raising or being cancelled in its body.
    method Finish(ticket: Ticket)
      requires Valid() && ticket in frames && Running(ticket)
      modifies this, locks.Values
      ensures Valid() && frames == old(frames) - {ticket}
      ensures old(frames[ticket]).Serialized? ==> Steps(old(View()), Ended(old(frames[ticket].key)), View())
      ensures old(frames[ticket]).Unserialized? ==> View() == old(View())
    {
      if frames[ticket].Unserialized? {
        DropFrame(ticket);
      } else {
        FinishSerialized(ticket);
      }
    }

    // The lock is released and the entry dropped with its last reference.
    method FinishSerialized(ticket: Ticket)
      requires Valid() && ticket in frames && Running(ticket) && frames[ticket].Serialized?
      modifies this, locks.Values
      ensures Valid() && frames == old(frames) - {ticket}
      ensures Steps(old(View()), Ended(old(frames[ticket].key)), View())
    {
      assert FrameOk(ticket);
      ghost var key := frames[ticket].key;
      ghost var before, tickets := View(), frames[ticket].lock.Tickets();
      ghost var p := Parting(key, ticket, tickets[1..], false);
      assert EntryOk(key);
      assert tickets[0] == ticket;
      HeadAndRest(tickets);
      ReleaseAndLeave(ticket, p);
      PartedIsValid(p);
      PartedView(p);
      EndedLine(before, View(), key, tickets);
    }

    method DropFrame(ticket: Ticket)
      requires Valid() && ticket in frames && frames[ticket].Unserialized?
      modifies this`frames
      ensures Valid() && frames == old(frames) - {ticket} && View() == old(View())
    {
      assert forall t | t in frames :: FrameOk(t);
      frames := frames - {ticket};
      SameLines();
      FramesMayChange();
    }

    method ReleaseAndLeave(ticket: Ticket, ghost p: Parting)
      requires ticket in frames && frames[ticket].Serialized?
      requires var frame := frames[ticket];
               && frame.key in locks && frame.lock == locks[frame.key]
               && frame.lock.holder.Some? && frame.lock.waiters == |frame.lock.Tickets()|
               && p == Parting(frame.key, ticket, frame.lock.Tickets()[1..], false)
               && forall k | k in locks && k != frame.key :: locks[k] != frame.lock
      modifies this, frames[ticket].lock
      ensures Parted(p)
    {
      var keyedLock, key := frames[ticket].lock, frames[ticket].key;
      keyedLock.Release();
      frames := frames - {ticket};
      if keyedLock.waiters == 0 {
        locks := locks - {key};
      }
    }

    // An update cancelled while it still waits for its lock.
    method Cancel(ticket: Ticket)
      requires Valid() && ticket in frames && !Running(ticket)
      modifies this, locks.Values
      ensures Valid() && frames == old(frames) - {ticket}
      ensures Steps(old(View()), Abandoned(old(frames[ticket].key), ticket), View())
    {
      assert FrameOk(ticket);
      ghost var key := frames[ticket].key;
      ghost var tickets, running := frames[ticket].lock.Tickets(), frames[ticket].lock.holder.Some?;
      assert EntryOk(key);
      ghost var p := Parting(key, ticket, Without(tickets, ticket), running);
      WithoutKeepsOrder(tickets, ticket);
      GiveUpAndLeave(ticket, p);
      PartedIsValid(p);
      PartedView(p);
    }

    method GiveUpAndLeave(ticket: Ticket, ghost p: Parting)
      requires ticket in frames && frames[ticket].Serialized?
      requires var frame := frames[ticket];
               && frame.key in locks && frame.lock == locks[frame.key]
               && frame.lock.holder != Some(ticket) && frame.lock.waiters == |frame.lock.Tickets()|
               && p == Parting(frame.key, ticket, Without(frame.lock.Tickets(), ticket), frame.lock.holder.Some?)
               && |p.left| == |frame.lock.Tickets()| - 1
               && forall k | k in locks && k != frame.key :: locks[k] != frame.lock
      modifies this, frames[ticket].lock
      ensures Parted(p)
    {
      var keyedLock, key := frames[ticket].lock, frames[ticket].key;
      keyedLock.GiveUp(ticket);
      frames := frames - {ticket};
      if keyedLock.waiters == 0 {
        locks := locks - {key};
      }
    }

    // Any two running updates of one key are the same update, because both hold the one lock object
    // the table has for the key.
    lemma MutualExclusion(t: Ticket, t': Ticket)
      requires Valid() && t in frames && t' in frames
      requires frames[t].Serialized? && frames[t'].Serialized? && frames[t].key == frames[t'].key
      ensures frames[t].lock == frames[t'].lock
      ensures Running(t) && Running(t') ==> t == t'
    {
      assert FrameOk(t) && FrameOk(t');
    }

    // The table holds exactly the keys with an update in flight, and each counter is their number.
    lemma TableIsTheInFlightKeys(key: LockKey)
      requires Valid()
      ensures var inFlight := set t | t in frames && frames[t].Serialized? && frames[t].key == key;
              && (key in locks <==> inFlight != {})
              && (key in locks ==> locks[key].waiters == |inFlight|)
    {
      var inFlight := set t | t in frames && frames[t].Serialized? && frames[t].key == key;
      assert forall t | t in inFlight :: FrameOk(t);
      if key in locks {
        assert EntryOk(key);
        var tickets := locks[key].Tickets();
        assert tickets[0] in inFlight;
        MembersOfIncreasing(tickets);
        assert inFlight == Members(tickets);
      }
    }

    // A line somebody stands in always moves: its head is running, or the lock is free for it.
    lemma NobodyIsStuck(t: Ticket)
      requires Valid() && t in frames && frames[t].Serialized?
      ensures var key := frames[t].key;
              || Possible(View(), Granted(key))
              || exists head | head in frames && frames[head].Serialized? && frames[head].key == key :: Running(head)
    {
      assert FrameOk(t);
      var key := frames[t].key;
      assert EntryOk(key);
      if locks[key].holder.Some? {
        var head := locks[key].holder.value;
        assert head == locks[key].Tickets()[0] && head in locks[key].Tickets();
        assert FrameOk(head) && Running(head);
      }
    }
  }

  lemma HeadAndRest(tickets: seq<Ticket>)
    requires Increasing(tickets) && tickets != []
    ensures Increasing(tickets[1..])
    ensures forall t :: t in tickets[1..] <==> t in tickets && t != tickets[0]
  {
    assert forall t :: t in tickets <==> t == tickets[0] || t in tickets[1..];
  }

  ghost function Members(tickets: seq<Ticket>): set<Ticket> {
    set t | t in tickets
  }

  lemma {:induction false} MembersOfIncreasing(tickets: seq<Ticket>)
    requires Increasing(tickets)
    ensures |Members(tickets)| == |tickets|
  {
    if tickets != [] {
      HeadAndRest(tickets);
      MembersOfIncreasing(tickets[1..]);
      assert tickets[0] in tickets && tickets[0] !in tickets[1..];
      assert Members(tickets) == {tickets[0]} + Members(tickets[1..]);
    }
  }
}
