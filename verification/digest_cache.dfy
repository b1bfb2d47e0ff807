// The render-digest cache of the meeting cards and the write lifecycle that keeps it: capture, commit,
// drain, reconcile (libs/data/mitup_bot/db.py, libs/telegram/mitup_bot/reconcile.py and the card edits of
// libs/telegram/mitup_bot/api_wrapper.py).
module DigestCache {
  import opened Wrappers

  // Everything an edit sends: the html and, for an inline card, the keyboard beside it.
  datatype Payload = Payload(html: string, markup: string)

  type Fingerprint = Payload -> string

  ghost predicate Injective(digest: Fingerprint) {
    forall a, b :: digest(a) == digest(b) ==> a == b
  }

  // The `Message` rows with their stored digests, and what Telegram shows for each card.
  datatype Cards = Cards(stored: map<int, Option<string>>, shown: map<int, Payload>)

  // A stored digest describes what Telegram shows.
  ghost predicate Sound(digest: Fingerprint, c: Cards) {
    && c.stored.Keys <= c.shown.Keys
    && forall k | k in c.stored :: TrueDigest(digest, c, k)
  }

  predicate TrueDigest(digest: Fingerprint, c: Cards, k: int)
    requires k in c.stored && k in c.shown
  {
    c.stored[k].Some? ==> c.stored[k].value == digest(c.shown[k])
  }

  // What becomes of a queued edit. The drain may skip or abandon it, and a failure leaves open whether
  // Telegram applied the edit before the answer was lost.
  datatype Fate = Delivered | Unreachable | Failed(applied: bool) | NotRun

  // One card drawn by the body of a write, with the fate its edit has if it is queued.
  datatype Render = Render(messageDbId: Option<int>, payload: Payload, fate: Fate)

  // One write-mode critical section. `reconciled` is false when the follow-up transaction is lost.
  datatype Write = Write(renders: seq<Render>, committed: bool, reconciled: bool)

  predicate TookEffect(fate: Fate) {
    fate == Delivered || fate == Failed(true)
  }

  predicate IsQueued(digest: Fingerprint, c: Cards, r: Render) {
    r.messageDbId.None? || r.messageDbId.value !in c.stored || c.stored[r.messageDbId.value] != Some(digest(r.payload))
  }

  function Queue(digest: Fingerprint, c: Cards, rs: seq<Render>): seq<Render> {
    if rs == [] then []
    else
      var n := |rs| - 1;
      Queue(digest, c, rs[..n]) + if IsQueued(digest, c, rs[n]) then [rs[n]] else []
  }

  // What a card shows once `q` was drained: the last edit of it that took effect.
  function LastShown(q: seq<Render>, k: int, before: Payload): Payload {
    if q == [] then before
    else
      var n := |q| - 1;
      if q[n].messageDbId == Some(k) && TookEffect(q[n].fate) then q[n].payload else LastShown(q[..n], k, before)
  }

  // The digest reconciled for a card: that of its last confirmed edit.
  function LastStored(digest: Fingerprint, q: seq<Render>, k: int, before: Option<string>): Option<string> {
    if q == [] then before
    else
      var n := |q| - 1;
      if q[n].messageDbId == Some(k) && q[n].fate == Delivered then Some(digest(q[n].payload))
      else LastStored(digest, q[..n], k, before)
  }

  predicate ReportedGone(q: seq<Render>, k: int) {
    q != [] && ((q[|q| - 1].messageDbId == Some(k) && q[|q| - 1].fate == Unreachable) || ReportedGone(q[..|q| - 1], k))
  }

  // The cards after a whole write-mode invocation.
  function Written(digest: Fingerprint, c: Cards, w: Write): Cards {
    if !w.committed then c
    else
      var q := Queue(digest, c, w.renders);
      var shown := map k | k in c.shown :: LastShown(q, k, c.shown[k]);
      if w.reconciled then
        Cards(map k | k in c.stored && !ReportedGone(q, k) :: LastStored(digest, q, k, c.stored[k]), shown)
      else
        Cards(c.stored, shown)
  }

  // A row is dropped exactly when Telegram reported its card gone and the reconcile was kept; no card is
  // forgotten or invented, and a body that raises leaves everything as it was.
  lemma OnlyDeadRowsGo(digest: Fingerprint, c: Cards, w: Write, k: int)
    ensures Written(digest, c, w).shown.Keys == c.shown.Keys
    ensures !w.committed ==> Written(digest, c, w) == c
    ensures k in Written(digest, c, w).stored <==>
              && k in c.stored
              && !(w.committed && w.reconciled && exists i | 0 <= i < |w.renders| ::
                     && w.renders[i].messageDbId == Some(k) && IsQueued(digest, c, w.renders[i])
                     && w.renders[i].fate == Unreachable)
  {
    GoneIsUnreachable(digest, c, w.renders, k);
  }

  lemma {:induction false} GoneIsUnreachable(digest: Fingerprint, c: Cards, rs: seq<Render>, k: int)
    ensures ReportedGone(Queue(digest, c, rs), k) <==>
              exists i | 0 <= i < |rs| ::
                rs[i].messageDbId == Some(k) && IsQueued(digest, c, rs[i]) && rs[i].fate == Unreachable
  {
    if rs != [] {
      var n := |rs| - 1;
      OneRenderMore(digest, c, rs, k, Payload("", ""), None);
      GoneIsUnreachable(digest, c, rs[..n], k);
      assert forall i | 0 <= i < n :: rs[..n][i] == rs[i];
    }
  }

  // An edit is left out exactly when its row holds the digest of what it would send.
  lemma LeftOutIffDigestMatches(digest: Fingerprint, c: Cards, k: int, payload: Payload, fate: Fate)
    ensures IsQueued(digest, c, Render(None, payload, fate))
    ensures !IsQueued(digest, c, Render(Some(k), payload, fate))
        <==> k in c.stored && c.stored[k] == Some(digest(payload))
  {
  }

  // ---- Soundness ----

  ghost predicate OneRenderPerCard(rs: seq<Render>) {
    forall i, j | 0 <= i < j < |rs| :: rs[i].messageDbId.Some? ==> rs[i].messageDbId != rs[j].messageDbId
  }

  // Every edit that changed a card with a stored digest was confirmed, and the confirmation was kept.
  ghost predicate Honest(digest: Fingerprint, c: Cards, w: Write) {
    w.committed ==> forall i | 0 <= i < |w.renders| :: HonestRender(digest, c, w.renders[i], w.reconciled)
  }

  predicate HonestRender(digest: Fingerprint, c: Cards, r: Render, reconciled: bool) {
    var hadDigest := r.messageDbId.Some? && r.messageDbId.value in c.stored && c.stored[r.messageDbId.value].Some?;
    IsQueued(digest, c, r) && TookEffect(r.fate) && hadDigest ==> r.fate == Delivered && reconciled
  }

  // One render more, seen from a card.
  lemma OneRenderMore(digest: Fingerprint, c: Cards, rs: seq<Render>, k: int, before: Payload, stored: Option<string>)
    requires rs != []
    ensures var last := rs[|rs| - 1];
            var front, q := Queue(digest, c, rs[..|rs| - 1]), Queue(digest, c, rs);
            var hit := IsQueued(digest, c, last) && last.messageDbId == Some(k);
            && LastShown(q, k, before)
                == (if hit && TookEffect(last.fate) then last.payload else LastShown(front, k, before))
            && LastStored(digest, q, k, stored)
               == (if hit && last.fate == Delivered then Some(digest(last.payload))
                   else LastStored(digest, front, k, stored))
            && (ReportedGone(q, k) <==> (hit && last.fate == Unreachable) || ReportedGone(front, k))
  {
    var last := rs[|rs| - 1];
    var front := Queue(digest, c, rs[..|rs| - 1]);
    if IsQueued(digest, c, last) {
      assert (front + [last])[..|front|] == front;
    } else {
      assert front + [] == front;
    }
  }

  lemma {:induction false} UntouchedCard(digest: Fingerprint, c: Cards, rs: seq<Render>, k: int, before: Payload,
      stored: Option<string>)
    requires forall i | 0 <= i < |rs| :: rs[i].messageDbId != Some(k)
    ensures var q := Queue(digest, c, rs);
            LastShown(q, k, before) == before && LastStored(digest, q, k, stored) == stored && !ReportedGone(q, k)
  {
    if rs != [] {
      OneRenderMore(digest, c, rs, k, before, stored);
      UntouchedCard(digest, c, rs[..|rs| - 1], k, before, stored);
    }
  }

  // The only render of a card decides what becomes of it.
  lemma {:induction false} OnlyRenderDecides(digest: Fingerprint, c: Cards, rs: seq<Render>, i: nat, k: int,
      before: Payload, stored: Option<string>)
    requires i < |rs| && OneRenderPerCard(rs) && rs[i].messageDbId == Some(k)
    ensures var q := Queue(digest, c, rs);
            var queued := IsQueued(digest, c, rs[i]);
            && LastShown(q, k, before) == (if queued && TookEffect(rs[i].fate) then rs[i].payload else before)
            && LastStored(digest, q, k, stored)
               == (if queued && rs[i].fate == Delivered then Some(digest(rs[i].payload)) else stored)
            && (ReportedGone(q, k) <==> queued && rs[i].fate == Unreachable)
  {
    var n := |rs| - 1;
    OneRenderMore(digest, c, rs, k, before, stored);
    if i < n {
      OnlyRenderDecides(digest, c, rs[..n], i, k, before, stored);
    } else {
      UntouchedCard(digest, c, rs[..n], k, before, stored);
    }
  }

  // What a write leaves of a card it draws once, fate by fate.
  lemma EachFateLeaves(digest: Fingerprint, c: Cards, w: Write, i: nat, k: int)
    requires OneRenderPerCard(w.renders) && w.committed && w.reconciled
    requires i < |w.renders| && w.renders[i].messageDbId == Some(k) && k in c.stored && k in c.shown
    requires IsQueued(digest, c, w.renders[i])
    ensures var after, payload := Written(digest, c, w), w.renders[i].payload;
            match w.renders[i].fate
            case Delivered => k in after.stored && after.shown[k] == payload && after.stored[k] == Some(digest(payload))
            case Unreachable => k !in after.stored && after.shown[k] == c.shown[k]
            case Failed(applied) =>
              && k in after.stored && after.stored[k] == c.stored[k]
              && after.shown[k] == if applied then payload else c.shown[k]
            case NotRun => k in after.stored && after.stored[k] == c.stored[k] && after.shown[k] == c.shown[k]
  {
    OnlyRenderDecides(digest, c, w.renders, i, k, c.shown[k], c.stored[k]);
  }

  lemma RenderKeepsDigestIff(digest: Fingerprint, c: Cards, w: Write, i: nat, k: int)
    requires Injective(digest) && Sound(digest, c) && OneRenderPerCard(w.renders) && w.committed
    requires i < |w.renders| && w.renders[i].messageDbId == Some(k) && k in c.stored
    ensures var after := Written(digest, c, w);
            && (k in after.stored
                ==> (TrueDigest(digest, after, k) <==> HonestRender(digest, c, w.renders[i], w.reconciled)))
            && (k !in after.stored ==> !TookEffect(w.renders[i].fate))
  {
    OnlyRenderDecides(digest, c, w.renders, i, k, c.shown[k], c.stored[k]);
    assert TrueDigest(digest, c, k);
  }

  lemma OtherCardsKeepDigest(digest: Fingerprint, c: Cards, w: Write, k: int)
    requires Sound(digest, c) && w.committed && k in c.stored && forall r <- w.renders :: r.messageDbId != Some(k)
    ensures var after := Written(digest, c, w); k in after.stored && TrueDigest(digest, after, k)
  {
    UntouchedCard(digest, c, w.renders, k, c.shown[k], c.stored[k]);
    assert TrueDigest(digest, c, k);
  }

  // A write keeps every stored digest true exactly when it is honest.
  lemma WriteKeepsSoundIffHonest(digest: Fingerprint, c: Cards, w: Write)
    requires Injective(digest) && Sound(digest, c) && OneRenderPerCard(w.renders)
    ensures Sound(digest, Written(digest, c, w)) <==> Honest(digest, c, w)
  {
    if w.committed {
      var after := Written(digest, c, w);
      if Honest(digest, c, w) {
        forall k | k in after.stored
          ensures TrueDigest(digest, after, k)
        {
          if i :| 0 <= i < |w.renders| && w.renders[i].messageDbId == Some(k) {
            RenderKeepsDigestIff(digest, c, w, i, k);
          } else {
            OtherCardsKeepDigest(digest, c, w, k);
          }
        }
      }
      if Sound(digest, after) {
        forall i | 0 <= i < |w.renders|
          ensures HonestRender(digest, c, w.renders[i], w.reconciled)
        {
          var r := w.renders[i];
          if r.messageDbId.Some? && r.messageDbId.value in c.stored {
            RenderKeepsDigestIff(digest, c, w, i, r.messageDbId.value);
          }
        }
      }
    }
  }

  // Leaving an edit out because the digest matches changes nothing.
  lemma SkippedEditIsANoOp(digest: Fingerprint, c: Cards, r: Render)
    requires Injective(digest) && Sound(digest, c) && !IsQueued(digest, c, r)
    ensures c.shown[r.messageDbId.value] == r.payload
  {
    assert TrueDigest(digest, c, r.messageDbId.value);
  }

  // ---- Runs ----

  function Run(digest: Fingerprint, c: Cards, ws: seq<Write>): Cards {
    if ws == [] then c else Written(digest, Run(digest, c, ws[..|ws| - 1]), ws[|ws| - 1])
  }

  ghost predicate HonestRun(digest: Fingerprint, c: Cards, ws: seq<Write>) {
    forall i | 0 <= i < |ws| :: OneRenderPerCard(ws[i].renders) && Honest(digest, Run(digest, c, ws[..i]), ws[i])
  }

  lemma {:induction false} HonestRunKeepsSound(digest: Fingerprint, c: Cards, ws: seq<Write>)
    requires Injective(digest) && Sound(digest, c) && HonestRun(digest, c, ws)
    ensures Sound(digest, Run(digest, c, ws))
  {
    if ws != [] {
      var n := |ws| - 1;
      assert forall i | 0 <= i < n :: ws[..n][..i] == ws[..i];
      HonestRunKeepsSound(digest, c, ws[..n]);
      WriteKeepsSoundIffHonest(digest, Run(digest, c, ws[..n]), ws[n]);
    }
  }

  // However many edits of a card failed before, the next render of it that is delivered, or left out
  // because its digest matches, leaves the card showing that render, until a later write draws it.
  lemma {:induction false} NextRenderRepairs(digest: Fingerprint, c: Cards, before: seq<Write>, w: Write,
      after: seq<Write>, i: nat, k: int)
    requires Injective(digest) && Sound(digest, c) && HonestRun(digest, c, before)
    requires w.committed && OneRenderPerCard(w.renders) && i < |w.renders| && w.renders[i].messageDbId == Some(k)
    requires k in Run(digest, c, before).stored
    requires IsQueued(digest, Run(digest, c, before), w.renders[i]) ==> w.renders[i].fate == Delivered
    requires forall v <- after :: v.committed ==> forall r <- v.renders :: r.messageDbId != Some(k)
    ensures var end := Run(digest, c, before + [w] + after);
            && k in end.stored && k in end.shown && end.shown[k] == w.renders[i].payload
            && (w.reconciled ==> end.stored[k] == Some(digest(w.renders[i].payload)))
    decreases |after|
  {
    var all := before + [w] + after;
    var n := |all| - 1;
    if after == [] {
      assert all[..n] == before && all[n] == w;
      var was := Run(digest, c, before);
      HonestRunKeepsSound(digest, c, before);
      OnlyRenderDecides(digest, was, w.renders, i, k, was.shown[k], was.stored[k]);
    } else {
      assert all[..n] == before + [w] + after[..|after| - 1] && all[n] == after[|after| - 1];
      NextRenderRepairs(digest, c, before, w, after[..|after| - 1], i, k);
      var was := Run(digest, c, all[..n]);
      if all[n].committed {
        UntouchedCard(digest, was, all[n].renders, k, was.shown[k], was.stored[k]);
      }
    }
  }

  // ---- Where it fails ----

  predicate Redraws(w: Write, k: int, payload: Payload) {
    w.committed && |w.renders| == 1 && w.renders[0].messageDbId == Some(k) && w.renders[0].payload == payload
  }

  // An edit that failed but was applied, or whose reconcile was lost, leaves the old digest behind: when
  // the meeting returns to its earlier state the repair is skipped, and every later one like it.
  lemma {:induction false} UnconfirmedEditIsNeverRepaired(digest: Fingerprint, earlier: Payload, passing: Payload,
      k: int, w: Write, again: seq<Write>)
    requires Injective(digest) && earlier != passing
    requires Redraws(w, k, passing) && TookEffect(w.renders[0].fate)
        && !(w.renders[0].fate == Delivered && w.reconciled)
    requires forall i | 0 <= i < |again| :: Redraws(again[i], k, earlier)
    ensures var c := Cards(map[k := Some(digest(earlier))], map[k := earlier]);
            Sound(digest, c) && Run(digest, c, [w] + again) == Cards(c.stored, map[k := passing])
  {
    var c := Cards(map[k := Some(digest(earlier))], map[k := earlier]);
    var all := [w] + again;
    var n := |all| - 1;
    if again == [] {
      assert all[..n] == [] && all[n] == w;
      OneRender(digest, c, w, k);
    } else {
      assert all[..n] == [w] + again[..|again| - 1] && all[n] == again[|again| - 1];
      UnconfirmedEditIsNeverRepaired(digest, earlier, passing, k, w, again[..|again| - 1]);
      OneRender(digest, Run(digest, c, all[..n]), all[n], k);
    }
  }

  lemma OneRender(digest: Fingerprint, c: Cards, w: Write, k: int)
    requires |w.renders| == 1 && w.committed && w.renders[0].messageDbId == Some(k)
    requires c.stored.Keys == c.shown.Keys == {k}
    requires w.renders[0].fate == Unreachable ==> !IsQueued(digest, c, w.renders[0])
    ensures var r := w.renders[0];
            var queued := IsQueued(digest, c, r);
            Written(digest, c, w) == Cards(
              map[k := if queued && r.fate == Delivered && w.reconciled then Some(digest(r.payload)) else c.stored[k]],
              map[k := if queued && TookEffect(r.fate) then r.payload else c.shown[k]])
  {
    OnlyRenderDecides(digest, c, w.renders, 0, k, c.shown[k], c.stored[k]);
    var after := Written(digest, c, w);
    assert after.shown.Keys == {k} && after.stored.Keys == {k};
    OnlyKey(after.shown, k);
    OnlyKey(after.stored, k);
  }

  lemma OnlyKey<V>(m: map<int, V>, k: int)
    requires m.Keys == {k}
    ensures m == map[k := m[k]]
  {
  }

  // Some render of the card among `rs` is queued.
  predicate EditQueued(digest: Fingerprint, c: Cards, rs: seq<Render>, k: int) {
    rs != [] &&
      var n := |rs| - 1;
      (rs[n].messageDbId == Some(k) && IsQueued(digest, c, rs[n])) || EditQueued(digest, c, rs[..n], k)
  }

  predicate TakesEffect(rs: seq<Render>, k: int) {
    forall i | 0 <= i < |rs| :: rs[i].messageDbId == Some(k) ==> TookEffect(rs[i].fate)
  }

  // While no edit of a card is queued it shows what it did; from then on it differs from its digest.
  lemma {:induction false} QueuedEditShows(digest: Fingerprint, c: Cards, rs: seq<Render>, k: int, before: Payload)
    requires k in c.stored && TakesEffect(rs, k)
    ensures var shown := LastShown(Queue(digest, c, rs), k, before);
            if EditQueued(digest, c, rs, k) then c.stored[k] != Some(digest(shown)) else shown == before
  {
    if rs != [] {
      var n := |rs| - 1;
      QueuedEditShows(digest, c, rs[..n], k, before);
      OneRenderMore(digest, c, rs, k, before, None);
    }
  }

  // A body may draw a card more than once, and each render is compared with the digest stored before the
  // body. The last render is what the card shows exactly when it is queued or no earlier one was: when it
  // returns to the stored state it is left out, and an earlier one stays.
  lemma {:induction false} LastRenderShownIff(digest: Fingerprint, c: Cards, rs: seq<Render>, i: nat, k: int)
    requires Injective(digest) && Sound(digest, c) && k in c.stored && TakesEffect(rs, k)
    requires i < |rs| && rs[i].messageDbId == Some(k) && forall j | i < j < |rs| :: rs[j].messageDbId != Some(k)
    ensures LastShown(Queue(digest, c, rs), k, c.shown[k]) == rs[i].payload
       <==> IsQueued(digest, c, rs[i]) || !EditQueued(digest, c, rs, k)
  {
    var n := |rs| - 1;
    OneRenderMore(digest, c, rs, k, c.shown[k], None);
    if i < n {
      LastRenderShownIff(digest, c, rs[..n], i, k);
    } else {
      QueuedEditShows(digest, c, rs[..n], k, c.shown[k]);
      assert TrueDigest(digest, c, k);
    }
  }

  // The same of the cards after the whole write.
  lemma LastRenderOfWriteShownIff(digest: Fingerprint, c: Cards, w: Write, i: nat, k: int)
    requires Injective(digest) && Sound(digest, c) && k in c.stored && w.committed && TakesEffect(w.renders, k)
    requires i < |w.renders| && w.renders[i].messageDbId == Some(k)
    requires forall j | i < j < |w.renders| :: w.renders[j].messageDbId != Some(k)
    ensures Written(digest, c, w).shown[k] == w.renders[i].payload
       <==> IsQueued(digest, c, w.renders[i]) || !EditQueued(digest, c, w.renders, k)
  {
    LastRenderShownIff(digest, c, w.renders, i, k);
  }

  lemma SecondRenderOfACardIsDropped(digest: Fingerprint, shown: Payload, passing: Payload, k: int)
    requires Injective(digest) && shown != passing
    ensures var c := Cards(map[k := Some(digest(shown))], map[k := shown]);
            var w := Write([Render(Some(k), passing, Delivered), Render(Some(k), shown, Delivered)], true, true);
            Sound(digest, c) && Written(digest, c, w).shown[k] != shown
  {
    var c := Cards(map[k := Some(digest(shown))], map[k := shown]);
    var w := Write([Render(Some(k), passing, Delivered), Render(Some(k), shown, Delivered)], true, true);
    assert EditQueued(digest, c, w.renders[..1], k);
    LastRenderOfWriteShownIff(digest, c, w, 1, k);
  }

  // ---- The lifecycle ----

  class WriteLifecycle {
    const digest: Fingerprint
    var stored: map<int, Option<string>>
    var shown: map<int, Payload>
    // The outbox of the running write.
    var calls: seq<Render>
    var deadMessageIds: seq<int>
    var confirmedRenderDigests: map<int, string>

    constructor (digest: Fingerprint, cards: Cards)
      ensures this.digest == digest && View() == cards && calls == []
    {
      this.digest := digest;
      stored, shown := cards.stored, cards.shown;
      calls, deadMessageIds, confirmedRenderDigests := [], [], map[];
    }

    function View(): Cards
      reads this
    {
      Cards(stored, shown)
    }

    method UpdateSingleMeetingMessage(r: Render)
      modifies this`calls
      ensures calls == old(calls) + if IsQueued(digest, View(), r) then [r] else []
    {
      if IsQueued(digest, View(), r) {
        calls := calls + [r];
      }
    }

    // What the drain has done once the edits `q` were run, starting from the cards `before`.
    ghost predicate Drained(before: Cards, q: seq<Render>)
      reads this
    {
      && stored == before.stored
      && shown == (map k | k in before.shown :: LastShown(q, k, before.shown[k]))
      && (forall k :: k in deadMessageIds <==> ReportedGone(q, k))
      && (forall k, was ::
          LastStored(digest, q, k, was) == if k in confirmedRenderDigests then Some(confirmedRenderDigests[k]) else was)
    }

    method QueuedMeetingMessageEdit(r: Render, ghost before: Cards, ghost q: seq<Render>)
      requires Drained(before, q)
      modifies this`shown, this`deadMessageIds, this`confirmedRenderDigests
      ensures Drained(before, q + [r])
    {
      assert (q + [r])[..|q|] == q;
      if r.messageDbId.None? {
        return;
      }
      var k := r.messageDbId.value;
      if k in shown && TookEffect(r.fate) {
        shown := shown[k := r.payload];
      }
      if r.fate == Unreachable {
        deadMessageIds := deadMessageIds + [k];
      } else if r.fate == Delivered {
        confirmedRenderDigests := confirmedRenderDigests[k := digest(r.payload)];
      }
    }

    method ExecuteQueued()
      requires deadMessageIds == [] && confirmedRenderDigests == map[]
      modifies this`shown, this`deadMessageIds, this`confirmedRenderDigests
      ensures Drained(old(View()), calls)
    {
      ghost var before := View();
      var i := 0;
      while i < |calls|
        invariant 0 <= i <= |calls|
        invariant Drained(before, calls[..i])
      {
        QueuedMeetingMessageEdit(calls[i], before, calls[..i]);
        assert calls[..i + 1] == calls[..i] + [calls[i]];
        i := i + 1;
      }
      assert calls[..i] == calls;
    }

    method ReconcileOutbox(ghost before: Cards, ghost q: seq<Render>)
      requires Drained(before, q)
      modifies this`stored
      ensures stored == map k | k in before.stored && !ReportedGone(q, k) :: LastStored(digest, q, k, before.stored[k])
    {
      if deadMessageIds == [] && confirmedRenderDigests == map[] {
        forall k
          ensures k in before.stored ==> LastStored(digest, q, k, before.stored[k]) == before.stored[k]
        {
        }
        assert forall k :: ReportedGone(q, k) <==> k in deadMessageIds;
        return;
      }
      stored := map k | k in stored && k !in deadMessageIds :: stored[k];
      stored := map k | k in stored ::
        if k in confirmedRenderDigests then Some(confirmedRenderDigests[k]) else stored[k];
    }

    // A body that raises leaves nothing behind; one that commits is followed by the drain of exactly what
    // it queued and by the reconcile of what the drain found out.
    method BeginWrite(w: Write)
      modifies this
      ensures View() == Written(digest, old(View()), w)
    {
      ghost var before := View();
      calls, deadMessageIds, confirmedRenderDigests := [], [], map[];
      var i := 0;
      while i < |w.renders|
        invariant 0 <= i <= |w.renders|
        invariant View() == before && deadMessageIds == [] && confirmedRenderDigests == map[]
        invariant calls == Queue(digest, before, w.renders[..i])
      {
        UpdateSingleMeetingMessage(w.renders[i]);
        assert w.renders[..i + 1][..i] == w.renders[..i];
        i := i + 1;
      }
      assert w.renders[..i] == w.renders;
      if !w.committed {
        return;
      }
      ExecuteQueued();
      if w.reconciled {
        ReconcileOutbox(before, calls);
      }
    }
  }
}
