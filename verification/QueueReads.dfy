/**
 What a delivery had seen when it read its rows: later reads see more, every message was the head of what its
 delivery had seen, and so the order of deliveries and of messages is exactly the order of the numbers among the
 rows that were committed in time.
 */
module QueueReads {
  import opened QueueTables
  import opened QueueProtocol
  import opened QueueSlots
  import opened QueueOutbox
  import opened QueueOrder
  import opened QueueRuns
  import opened QueueSequence

  // ----- the invariant -----

  /** Deliveries, messages and the batch in hand were read in this order. */
  ghost predicate ReadsOk(committed: seq<Entry>, feeds: seq<Feed>, log: seq<Delivered>, phase: Phase) {
    && (forall a | 0 <= a < |log| :: log[a].seen <= |committed|)
    && (forall a, b | 0 <= a < b < |log| :: log[a].seen <= log[b].seen)
    && (forall f | 0 <= f < |feeds| :: feeds[f].seen <= |committed|)
    && (forall e, f | 0 <= e < f < |feeds| :: feeds[e].seen <= feeds[f].seen)
    && (phase.Delivering() ==>
          && phase.b.seen <= |committed|
          && (forall a | 0 <= a < |log| :: log[a].seen <= phase.b.seen)
          && (forall f | 0 <= f < |feeds| :: feeds[f].seen <= phase.b.seen))
  }

  /** The rows of a message are the oldest that its delivery had seen of the group, as far as they are pending. */
  ghost predicate IsOldest(m: Feed, pending: Outbox, committed: seq<Entry>) {
    && (forall x <- m.ids :: CommittedBy(committed, m.seen, x) && (x in pending ==> pending[x].key == m.key))
    && forall i, x | i in pending && x in m.ids ::
         pending[i].key == m.key && i !in m.ids && CommittedBy(committed, m.seen, i) ==> x < i
  }

  ghost predicate AllOldest(feeds: seq<Feed>, pending: Outbox, committed: seq<Entry>) {
    forall f | 0 <= f < |feeds| :: IsOldest(feeds[f], pending, committed)
  }

  ghost predicate SeenOk(s: State) {
    ReadsOk(s.committed, s.feeds, s.log, s.phase) && AllOldest(s.feeds, s.pending, s.committed)
  }

  // ----- what each write does -----

  /** Rows may go, and may be assigned or put off. */
  lemma FewerKeepOldest(m: Feed, p: Outbox, q: Outbox, committed: seq<Entry>)
    requires IsOldest(m, p, committed) && forall i <- q :: i in p && q[i].key == p[i].key
    ensures IsOldest(m, q, committed)
  {
  }

  lemma CommitKeepsOldest(m: Feed, pending: Outbox, committed: seq<Entry>, e: Entry, row: Pending)
    requires IsOldest(m, pending, committed) && m.seen <= |committed| && !CommittedBy(committed, |committed|, e.id)
    ensures IsOldest(m, pending[e.id := row], committed + [e])
  {
    forall i: nat ensures CommittedBy(committed + [e], m.seen, i) <==> CommittedBy(committed, m.seen, i) {
      CommittedByAppend(committed, e, m.seen, i);
    }
    assert !CommittedBy(committed, m.seen, e.id);
  }

  /** A message sent from a batch that is the head of what was seen. */
  lemma SendIsOldest(m: Feed, b: Batch, n: nat, pending: Outbox, committed: seq<Entry>, now: Time)
    requires BatchIsHead(committed, pending, b, now) && Ascending(b.ids) && n <= |b.ids|
    requires m.ids == b.ids[..n] && m.key == b.key && m.seen == b.seen
    requires forall x <- b.ids :: x in pending && pending[x].key == b.key
    ensures IsOldest(m, pending, committed)
  {
    forall l | 0 <= l < n ensures b.ids[l] in m.ids {
      assert m.ids[l] == b.ids[l];
    }
    forall i, x | i in pending && x in m.ids && pending[i].key == m.key && i !in m.ids && CommittedBy(committed, m.seen, i)
      ensures x < i
    {
      var k :| 0 <= k < n && b.ids[k] == x;
      assert b.ids[k] in b.ids;
      if i in b.ids {
        var j :| 0 <= j < |b.ids| && b.ids[j] == i;
      }
    }
  }

  // ----- it holds in every reachable state -----

  lemma ReadsStep(cfg: Config, s: State, step: Step)
    requires PhaseOk(s) && HistoryOk(s) && Enabled(cfg, s, step) && ReadsOk(s.committed, s.feeds, s.log, s.phase)
    ensures var t := Apply(cfg, s, step); ReadsOk(t.committed, t.feeds, t.log, t.phase)
  {
    hide HistoryOk;
    match step {
      case World(x) => ReadsWorld(s, x);
      case Collector(x) => ReadsCollector(s, x);
      case Tick(x) => ReadsTick(cfg, s, x);
      case Admission(x) => ReadsAdmission(cfg, s, x);
      case Message(x) => ReadsMessage(cfg, s, x);
      case Defer(ids, until) =>
    }
  }

  lemma ReadsWorld(s: State, step: WorldStep)
    requires WorldEnabled(s, step) && ReadsOk(s.committed, s.feeds, s.log, s.phase)
    ensures var t := WorldApply(s, step); ReadsOk(t.committed, t.feeds, t.log, t.phase)
  {
  }

  lemma ReadsCollector(s: State, step: CollectorStep)
    requires CollectorEnabled(s, step) && ReadsOk(s.committed, s.feeds, s.log, s.phase)
    ensures var t := CollectorApply(s, step); ReadsOk(t.committed, t.feeds, t.log, t.phase)
  {
  }

  lemma ReadsTick(cfg: Config, s: State, step: TickStep)
    requires PhaseOk(s) && TickEnabled(cfg, s, step) && ReadsOk(s.committed, s.feeds, s.log, s.phase)
    ensures var t := TickApply(cfg, s, step); ReadsOk(t.committed, t.feeds, t.log, t.phase)
  {
  }

  lemma ReadsAdmission(cfg: Config, s: State, step: AdmissionStep)
    requires AdmissionEnabled(cfg, s, step) && ReadsOk(s.committed, s.feeds, s.log, s.phase)
    ensures var t := AdmissionApply(cfg, s, step); ReadsOk(t.committed, t.feeds, t.log, t.phase)
  {
  }

  lemma ReadsMessage(cfg: Config, s: State, step: MessageStep)
    requires MessageEnabled(cfg, s, step) && ReadsOk(s.committed, s.feeds, s.log, s.phase)
    ensures var t := MessageApply(cfg, s, step); ReadsOk(t.committed, t.feeds, t.log, t.phase)
  {
  }

  lemma FewerKeepAllOldest(feeds: seq<Feed>, p: Outbox, q: Outbox, committed: seq<Entry>)
    requires AllOldest(feeds, p, committed) && forall i <- q :: i in p && q[i].key == p[i].key
    ensures AllOldest(feeds, q, committed)
  {
    forall f | 0 <= f < |feeds| ensures IsOldest(feeds[f], q, committed) {
      FewerKeepOldest(feeds[f], p, q, committed);
    }
  }

  lemma OldestWorld(s: State, step: WorldStep)
    requires SeenOk(s) && WorldEnabled(s, step)
    ensures var t := WorldApply(s, step); AllOldest(t.feeds, t.pending, t.committed)
  {
    var t := WorldApply(s, step);
    forall f | 0 <= f < |t.feeds| ensures IsOldest(t.feeds[f], t.pending, t.committed) {
      assert IsOldest(s.feeds[f], s.pending, s.committed);
    }
  }

  lemma OldestCollector(s: State, step: CollectorStep)
    requires HistoryOk(s) && OutboxOk(s) && SeenOk(s) && CollectorEnabled(s, step)
    ensures var t := CollectorApply(s, step); AllOldest(t.feeds, t.pending, t.committed)
  {
    match step {
      case Commit(c) =>
        var x := s.txns[c];
        var e := Entry(x.stage.id, x.stage.eventId, x.key);
        var row := Pending(x.stage.eventId, x.key, x.payload, x.stage.found, x.started, x.started);
        NewEntry(s, c);
        forall f | 0 <= f < |s.feeds| ensures IsOldest(s.feeds[f], s.pending[e.id := row], s.committed + [e]) {
          CommitKeepsOldest(s.feeds[f], s.pending, s.committed, e, row);
        }
      case _ =>
    }
  }

  /** The number of an open enqueue has not been committed yet. */
  lemma NewEntry(s: State, c: nat)
    requires HistoryOk(s) && OutboxOk(s) && CollectorEnabled(s, Commit(c))
    ensures !CommittedBy(s.committed, |s.committed|, s.txns[c].stage.id)
  {
    forall k | 0 <= k < |s.committed| ensures s.committed[k].id != s.txns[c].stage.id {
      assert Accounted(s.committed[k], s.pending, s.events, DeliveredIds(s.log), s.dropped);
      assert Unused(s.txns[c].stage, s.pending, s.events, s.nextEvent, s.nextId);
    }
  }

  lemma OldestTick(cfg: Config, s: State, step: TickStep)
    requires SeenOk(s) && TickEnabled(cfg, s, step)
    ensures var t := TickApply(cfg, s, step); AllOldest(t.feeds, t.pending, t.committed)
  {
    FewerKeepAllOldest(s.feeds, s.pending, TickApply(cfg, s, step).pending, s.committed);
  }

  lemma OldestAdmission(cfg: Config, s: State, step: AdmissionStep)
    requires SeenOk(s) && AdmissionEnabled(cfg, s, step)
    ensures var t := AdmissionApply(cfg, s, step); AllOldest(t.feeds, t.pending, t.committed)
  {
    FewerKeepAllOldest(s.feeds, s.pending, AdmissionApply(cfg, s, step).pending, s.committed);
  }

  lemma OldestMessage(cfg: Config, s: State, step: MessageStep)
    requires HistoryOk(s) && OutboxOk(s) && SeenOk(s) && MessageEnabled(cfg, s, step)
    ensures var t := MessageApply(cfg, s, step); AllOldest(t.feeds, t.pending, t.committed)
  {
    match step {
      case Send(n) => SendIsOldest(MessageOf(s, n), s.phase.b, n, s.pending, s.committed, s.now);
      case _ => FewerKeepAllOldest(s.feeds, s.pending, MessageApply(cfg, s, step).pending, s.committed);
    }
  }

  lemma SeenStep(cfg: Config, s: State, step: Step)
    requires PhaseOk(s) && OutboxOk(s) && HistoryOk(s) && SeenOk(s) && Enabled(cfg, s, step)
    ensures SeenOk(Apply(cfg, s, step))
  {
    ReadsStep(cfg, s, step);
    match step {
      case World(x) => OldestWorld(s, x);
      case Collector(x) => OldestCollector(s, x);
      case Tick(x) => OldestTick(cfg, s, x);
      case Admission(x) => OldestAdmission(cfg, s, x);
      case Message(x) => OldestMessage(cfg, s, x);
      case Defer(ids, until) => FewerKeepAllOldest(s.feeds, s.pending, DeferUntil(s.pending, ids, until), s.committed);
    }
  }

  lemma {:induction false} SeenAlways(cfg: Config, tr: seq<State>, steps: seq<Step>, i: nat)
    requires IsRun(cfg, tr, steps) && i < |tr|
    ensures SeenOk(tr[i])
  {
    if i > 0 {
      SeenAlways(cfg, tr, steps, i - 1);
      PhaseAlways(cfg, tr, steps, i - 1);
      OutboxAlways(cfg, tr, steps, i - 1);
      HistoryAlways(cfg, tr, steps, i - 1);
      SeenStep(cfg, tr[i - 1], steps[i - 1]);
    }
  }

  // ----- deliveries -----

  ghost predicate DeliveredUpTo(log: seq<Delivered>, a: nat, y: nat) {
    exists b :: 0 <= b <= a && b < |log| && y in log[b].ids
  }

  /** Of a group's rows, a smaller number went out no later than a larger one just when it was committed before the
      delivery with the larger one was read; so an inversion happens just when it was committed later. */
  lemma InversionMeans(cfg: Config, tr: seq<State>, steps: seq<Step>, i: nat, a: nat, x: nat, y: nat)
    requires IsRun(cfg, tr, steps) && i < |tr| && a < |tr[i].log| && x in tr[i].log[a].ids
    requires y < x && Entered(tr[i].committed, y, tr[i].log[a].key) && y !in tr[i].dropped
    ensures DeliveredUpTo(tr[i].log, a, y) <==> CommittedBy(tr[i].committed, tr[i].log[a].seen, y)
    ensures forall b | 0 <= b < |tr[i].log| && y in tr[i].log[b].ids ::
              a < b <==> !CommittedBy(tr[i].committed, tr[i].log[a].seen, y)
  {
    var s := tr[i];
    HistoryAlways(cfg, tr, steps, i);
    SeenAlways(cfg, tr, steps, i);
    forall b | 0 <= b < |s.log| && y in s.log[b].ids
      ensures a < b <==> !CommittedBy(s.committed, s.log[a].seen, y)
    {
      SameEntry(s, y, s.log[a].key, b);
      if b <= a {
        assert CommittedBy(s.committed, s.log[b].seen, y);
        SeenMore(s.committed, s.log[b].seen, s.log[a].seen, y);
      }
    }
    if CommittedBy(s.committed, s.log[a].seen, y) {
      SettledInTime(s, a, x, y);
    }
  }

  lemma SeenMore(committed: seq<Entry>, m: nat, n: nat, y: nat)
    requires CommittedBy(committed, m, y) && m <= n
    ensures CommittedBy(committed, n, y)
  {
    var k :| 0 <= k < m && k < |committed| && committed[k].id == y;
    assert 0 <= k < n;
  }

  /** A row's group is that of the delivery that carried it. */
  lemma SameEntry(s: State, y: nat, key: GroupKey, b: nat)
    requires HistoryOk(s) && Entered(s.committed, y, key) && b < |s.log| && y in s.log[b].ids
    ensures s.log[b].key == key
  {
    var j :| 0 <= j < |s.committed| && s.committed[j].id == y && s.committed[j].key == key;
    assert Entered(s.committed, y, s.log[b].key);
    var k :| 0 <= k < |s.committed| && s.committed[k].id == y && s.committed[k].key == s.log[b].key;
    assert j == k;
  }

  /** A smaller row seen by a delivery of its group is not pending any more. */
  lemma SettledInTime(s: State, a: nat, x: nat, y: nat)
    requires HistoryOk(s) && a < |s.log| && x in s.log[a].ids && y < x
    requires Entered(s.committed, y, s.log[a].key) && y !in s.dropped && CommittedBy(s.committed, s.log[a].seen, y)
    ensures exists b :: 0 <= b < |s.log| && y in s.log[b].ids
  {
    var k :| 0 <= k < |s.committed| && s.committed[k].id == y && s.committed[k].key == s.log[a].key;
    assert Accounted(s.committed[k], s.pending, s.events, DeliveredIds(s.log), s.dropped);
    if y in DeliveredIds(s.log) {
      DeliveredFrom(s.log, y);
    }
  }

  // ----- messages -----

  /** A message carries the oldest pending rows of its group among those seen, and the first of them is due. */
  lemma SendsTheHead(cfg: Config, tr: seq<State>, steps: seq<Step>, i: nat, n: nat)
    requires IsRun(cfg, tr, steps) && i < |steps| && steps[i] == Message(Send(n))
    ensures var s, t := tr[i], tr[i + 1];
            && |t.feeds| == |s.feeds| + 1 && s.feeds <= t.feeds
            && var m := t.feeds[|s.feeds|];
               && m.ids != [] && m.ids <= s.phase.b.ids && m.key == s.phase.b.key
               && (forall x <- m.ids :: x in s.pending && s.pending[x].key == m.key)
               && s.pending[m.ids[0]].availableAt <= s.now
               && IsOldest(m, s.pending, s.committed)
  {
    var s := tr[i];
    HistoryAlways(cfg, tr, steps, i);
    OutboxAlways(cfg, tr, steps, i);
    SendIsOldest(MessageOf(s, n), s.phase.b, n, s.pending, s.committed, s.now);
  }

  lemma OldestAgree(m: Feed, was: Feed, pending: Outbox, committed: seq<Entry>)
    requires IsOldest(m, pending, committed) && IsOldest(was, pending, committed)
    requires m.key == was.key && was.seen <= m.seen && m.ids != [] && Ascending(m.ids) && was.ids != [] && Ascending(was.ids)
    requires (forall x <- m.ids :: x in pending && pending[x].key == m.key) && was.ids[0] in pending
    ensures m.ids[0] <= was.ids[0]
    ensures m.ids[0] == was.ids[0] <==> CommittedBy(committed, was.seen, m.ids[0])
  {
    var first, next := was.ids[0], m.ids[0];
    assert first in was.ids && next in m.ids;
    SeenMore(committed, was.seen, m.seen, first);
    if first in m.ids {
      var k :| 0 <= k < |m.ids| && m.ids[k] == first;
    }
    if next in was.ids {
      var k :| 0 <= k < |was.ids| && was.ids[k] == next;
    }
  }

  /** As long as the first row of an earlier message of the group is pending, the next message starts with it, unless
      a smaller number was committed after that message was read; then it starts with such a one. */
  lemma NextMessageRepeats(cfg: Config, tr: seq<State>, steps: seq<Step>, i: nat, n: nat, e: nat)
    requires IsRun(cfg, tr, steps) && i < |steps| && steps[i] == Message(Send(n))
    requires e < |tr[i].feeds| && tr[i].feeds[e].key == tr[i].phase.b.key
    requires tr[i].feeds[e].ids != [] && tr[i].feeds[e].ids[0] in tr[i].pending
    ensures var s, first := tr[i], tr[i].feeds[e].ids[0];
            && |tr[i + 1].feeds| == |s.feeds| + 1
            && var m := tr[i + 1].feeds[|s.feeds|];
               && m.ids != [] && m.ids[0] <= first
               && (m.ids[0] == first <==> CommittedBy(s.committed, s.feeds[e].seen, m.ids[0]))
  {
    var s := tr[i];
    SendsTheHead(cfg, tr, steps, i, n);
    SeenAlways(cfg, tr, steps, i + 1);
    var t, m := tr[i + 1], tr[i + 1].feeds[|s.feeds|];
    assert t.pending == s.pending && t.committed == s.committed && t.feeds[e] == s.feeds[e];
    MessageShape(cfg, tr, steps, i + 1, e);
    MessageShape(cfg, tr, steps, i + 1, |s.feeds|);
    OldestAgree(m, s.feeds[e], s.pending, s.committed);
  }

  lemma MessageShape(cfg: Config, tr: seq<State>, steps: seq<Step>, i: nat, f: nat)
    requires IsRun(cfg, tr, steps) && i < |tr| && f < |tr[i].feeds|
    ensures Ascending(tr[i].feeds[f].ids) && IsOldest(tr[i].feeds[f], tr[i].pending, tr[i].committed)
  {
    SeenAlways(cfg, tr, steps, i);
    MessagesAreSafe(cfg, tr, steps, i, f);
  }

  lemma Comparable(m: Feed, was: Feed, pending: Outbox, committed: seq<Entry>)
    requires IsOldest(m, pending, committed) && IsOldest(was, pending, committed)
    requires m.key == was.key && was.seen <= m.seen && Ascending(m.ids) && Ascending(was.ids)
    requires forall x <- m.ids :: x in pending && pending[x].key == m.key
    requires forall x <- was.ids :: x in pending
    requires forall y <- m.ids :: CommittedBy(committed, was.seen, y) || forall x <- was.ids :: x < y
    ensures was.ids <= m.ids || m.ids <= was.ids
  {
    if forall x <- was.ids :: x in m.ids {
      AscendingPrefix(was.ids, m.ids);
    } else {
      var x :| x in was.ids && x !in m.ids;
      SeenMore(committed, was.seen, m.seen, x);
      forall w | w in was.ids && w !in m.ids ensures forall y <- m.ids :: y < w {
        SeenMore(committed, was.seen, m.seen, w);
      }
      AscendingPrefix(m.ids, was.ids);
    }
  }

  /** While all rows of an earlier message are pending and no smaller number came late, the next message of the group
      repeats it, shorter or longer. */
  lemma NextMessageExtends(cfg: Config, tr: seq<State>, steps: seq<Step>, i: nat, n: nat, e: nat)
    requires IsRun(cfg, tr, steps) && i < |steps| && steps[i] == Message(Send(n))
    requires e < |tr[i].feeds| && tr[i].feeds[e].key == tr[i].phase.b.key
    requires forall x <- tr[i].feeds[e].ids :: x in tr[i].pending
    requires forall y <- tr[i].phase.b.ids ::
               CommittedBy(tr[i].committed, tr[i].feeds[e].seen, y) || forall x <- tr[i].feeds[e].ids :: x < y
    ensures |tr[i + 1].feeds| == |tr[i].feeds| + 1
    ensures var m, was := tr[i + 1].feeds[|tr[i].feeds|], tr[i].feeds[e];
            was.ids <= m.ids || m.ids <= was.ids
  {
    var s := tr[i];
    SendsTheHead(cfg, tr, steps, i, n);
    SeenAlways(cfg, tr, steps, i + 1);
    var t, m := tr[i + 1], tr[i + 1].feeds[|s.feeds|];
    assert t.pending == s.pending && t.committed == s.committed && t.feeds[e] == s.feeds[e];
    MessageShape(cfg, tr, steps, i + 1, e);
    MessageShape(cfg, tr, steps, i + 1, |s.feeds|);
    forall y | y in m.ids ensures y in s.phase.b.ids {
      var k :| 0 <= k < |m.ids| && m.ids[k] == y;
      assert s.phase.b.ids[k] == y;
    }
    Comparable(m, s.feeds[e], s.pending, s.committed);
  }
}
