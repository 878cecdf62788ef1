/**
 Order and conservation over whole runs: every committed outbox row is pending, dropped or
 delivered, never two of these, and deliveries of a group respect the order of its rows.

 Row numbers are drawn before the enqueue commits, so a smaller number may become visible after a larger
 one was delivered.  The order claim therefore speaks of the rows committed before a batch was read.
 */
module QueueOrder {
  import opened QueueTables
  import opened QueueProtocol
  import opened QueueSlots
  import opened QueueOutbox

  // ----- the invariant -----

  /** Row `i` was among the first `n` rows committed. */
  ghost predicate CommittedBy(committed: seq<Entry>, n: nat, i: nat) {
    exists k :: 0 <= k < n && k < |committed| && committed[k].id == i
  }

  ghost function DeliveredIds(log: seq<Delivered>): set<nat> {
    if log == [] then {} else DeliveredIds(log[..|log| - 1]) + AsSet(log[|log| - 1].ids)
  }

  /** A committed row is pending, delivered or dropped, as its event's disposition says. */
  ghost predicate Accounted(e: Entry, pending: Outbox, events: History, done: set<nat>, dropped: set<nat>) {
    && e.eventId in events
    && match events[e.eventId]
       case Queued => e.id in pending && pending[e.id].eventId == e.eventId && pending[e.id].key == e.key
       case Opened => e.id in done
       case Fed => e.id in done
       case Resolved => e.id in dropped
       case Cancelled => e.id in dropped
  }

  ghost predicate AccountsOk(committed: seq<Entry>, pending: Outbox, events: History, done: set<nat>, dropped: set<nat>) {
    && (forall k | 0 <= k < |committed| :: Accounted(committed[k], pending, events, done, dropped))
    && (forall j, k | 0 <= j < k < |committed| ::
          committed[j].id != committed[k].id && committed[j].eventId != committed[k].eventId)
    && (forall i <- pending :: CommittedBy(committed, |committed|, i))
    && pending.Keys !! done && pending.Keys !! dropped && done !! dropped
  }

  /** The number of an open enqueue is in none of the three places either. */
  ghost predicate FreshOk(txns: map<nat, Txn>, done: set<nat>, dropped: set<nat>, nextId: nat) {
    && (forall i <- done :: i < nextId) && (forall i <- dropped :: i < nextId)
    && forall t <- txns :: txns[t].stage.Inserted? ==> txns[t].stage.id !in done && txns[t].stage.id !in dropped
  }

  /** What was visible when a batch was read goes out in the order of its numbers. */
  ghost predicate OrderOk(committed: seq<Entry>, pending: Outbox, log: seq<Delivered>) {
    && (forall a | 0 <= a < |log| ::
          && log[a].ids != [] && Ascending(log[a].ids) && log[a].seen <= |committed|
          && (forall x <- log[a].ids :: CommittedBy(committed, log[a].seen, x) && Entered(committed, x, log[a].key)))
    && (forall a, i, x | 0 <= a < |log| && i in pending && x in log[a].ids ::
          pending[i].key == log[a].key && CommittedBy(committed, log[a].seen, i) ==> x < i)
    && (forall a, b, x, y | 0 <= a < b < |log| && x in log[a].ids && y in log[b].ids ::
          log[a].key == log[b].key && CommittedBy(committed, log[a].seen, y) ==> x < y)
  }

  ghost predicate Entered(committed: seq<Entry>, i: nat, key: GroupKey) {
    exists k :: 0 <= k < |committed| && committed[k].id == i && committed[k].key == key
  }

  /** The lock holder's batch is the oldest part of what it saw of its group, and it was due. */
  ghost predicate HeadOk(committed: seq<Entry>, pending: Outbox, phase: Phase, now: Time) {
    phase.Delivering() && (phase.Confirmed? ==> phase.reply.Up()) ==> BatchIsHead(committed, pending, phase.b, now)
  }

  ghost predicate BatchIsHead(committed: seq<Entry>, pending: Outbox, b: Batch, now: Time) {
    && b.seen <= |committed|
    && (forall x <- b.ids :: CommittedBy(committed, b.seen, x))
    && (forall i <- pending ::
          (pending[i].key == b.key && i !in b.ids && CommittedBy(committed, b.seen, i)) ==> forall x <- b.ids :: x < i)
    && b.ids != [] && b.ids[0] in pending && pending[b.ids[0]].availableAt <= now
  }

  ghost predicate RecordsOk(txns: map<nat, Txn>, nextId: nat, committed: seq<Entry>, pending: Outbox, events: History,
                            log: seq<Delivered>, dropped: set<nat>) {
    && AccountsOk(committed, pending, events, DeliveredIds(log), dropped)
    && FreshOk(txns, DeliveredIds(log), dropped, nextId)
    && OrderOk(committed, pending, log)
  }

  ghost predicate HistoryOk(s: State) {
    && RecordsOk(s.txns, s.nextId, s.committed, s.pending, s.events, s.log, s.dropped)
    && HeadOk(s.committed, s.pending, s.phase, s.now)
  }

  // ----- what each write does -----

  lemma CommittedByAppend(committed: seq<Entry>, e: Entry, n: nat, i: nat)
    ensures n <= |committed| ==> (CommittedBy(committed + [e], n, i) <==> CommittedBy(committed, n, i))
    ensures CommittedBy(committed + [e], |committed| + 1, i) <==> CommittedBy(committed, |committed|, i) || i == e.id
  {
    var c := committed + [e];
    assert c[|committed|] == e;
    if CommittedBy(committed, |committed|, i) {
      var k :| 0 <= k < |committed| && committed[k].id == i;
      assert c[k].id == i;
    }
    if n <= |committed| && CommittedBy(committed, n, i) {
      var k :| 0 <= k < n && k < |committed| && committed[k].id == i;
      assert c[k].id == i;
    }
  }

  lemma DeliveredAppend(log: seq<Delivered>, d: Delivered)
    ensures DeliveredIds(log + [d]) == DeliveredIds(log) + AsSet(d.ids)
  {
    assert (log + [d])[..|log|] == log;
  }

  /** Deleting rows accounts for each of them as delivered or as dropped. */
  lemma SettleKeepsAccounts(committed: seq<Entry>, pending: Outbox, events: History, done: set<nat>, dropped: set<nat>,
                            gone: set<nat>, d: Disposition)
    requires EventsOk(pending, events) && AccountsOk(committed, pending, events, done, dropped)
    requires gone <= pending.Keys && d != Queued
    ensures var done' := if d == Opened || d == Fed then done + gone else done;
            var dropped' := if d == Opened || d == Fed then dropped else dropped + gone;
            AccountsOk(committed, pending - gone, Mark(events, RowsWith(pending, gone), d), done', dropped')
  {
    var rows := RowsWith(pending, gone);
    var done' := if d == Opened || d == Fed then done + gone else done;
    var dropped' := if d == Opened || d == Fed then dropped else dropped + gone;
    forall k | 0 <= k < |committed|
      ensures Accounted(committed[k], pending - gone, Mark(events, rows, d), done', dropped')
    {
      var e := committed[k];
      assert Accounted(e, pending, events, done, dropped);
      if e.id in gone {
        assert rows[e.id].eventId in EventsOf(rows);
      }
    }
  }

  lemma CommitKeepsAccounts(committed: seq<Entry>, pending: Outbox, events: History, done: set<nat>, dropped: set<nat>,
                            id: nat, row: Pending)
    requires AccountsOk(committed, pending, events, done, dropped)
    requires id !in pending && id !in done && id !in dropped && row.eventId !in events
    ensures AccountsOk(committed + [Entry(id, row.eventId, row.key)], pending[id := row],
                       events[row.eventId := Queued], done, dropped)
  {
    var e := Entry(id, row.eventId, row.key);
    var committed', pending' := committed + [e], pending[id := row];
    var events' := events[row.eventId := Queued];
    forall k | 0 <= k < |committed|
      ensures committed[k].id != id && Accounted(committed[k], pending', events', done, dropped)
    {
      assert Accounted(committed[k], pending, events, done, dropped);
    }
    forall i | i in pending'
      ensures CommittedBy(committed', |committed'|, i)
    {
      CommittedByAppend(committed, e, 0, i);
    }
  }

  lemma SameRowsKeepAccounts(committed: seq<Entry>, p: Outbox, q: Outbox, events: History, done: set<nat>, dropped: set<nat>)
    requires AccountsOk(committed, p, events, done, dropped) && SameRows(p, q)
    ensures AccountsOk(committed, q, events, done, dropped)
  {
    forall k | 0 <= k < |committed|
      ensures Accounted(committed[k], q, events, done, dropped)
    {
      assert Accounted(committed[k], p, events, done, dropped);
    }
  }

  lemma CommitKeepsOrder(committed: seq<Entry>, pending: Outbox, log: seq<Delivered>, e: Entry, row: Pending)
    requires OrderOk(committed, pending, log) && !CommittedBy(committed, |committed|, e.id)
    ensures OrderOk(committed + [e], pending[e.id := row], log)
  {
    var committed' := committed + [e];
    forall n: nat, i: nat | n <= |committed|
      ensures CommittedBy(committed', n, i) <==> CommittedBy(committed, n, i)
    {
      CommittedByAppend(committed, e, n, i);
    }
    forall i: nat, key | Entered(committed, i, key)
      ensures Entered(committed', i, key)
    {
      var k :| 0 <= k < |committed| && committed[k].id == i && committed[k].key == key;
      assert committed'[k].id == i && committed'[k].key == key;
    }
    forall n: nat | n <= |committed|
      ensures !CommittedBy(committed, n, e.id)
    {
    }
  }

  lemma DeliverKeepsOrder(committed: seq<Entry>, pending: Outbox, log: seq<Delivered>, d: Delivered)
    requires OrderOk(committed, pending, log)
    requires d.ids != [] && Ascending(d.ids) && d.seen <= |committed|
    requires forall x <- d.ids :: x in pending && pending[x].key == d.key
                                  && CommittedBy(committed, d.seen, x) && Entered(committed, x, d.key)
    requires forall i <- pending ::
               (pending[i].key == d.key && i !in d.ids && CommittedBy(committed, d.seen, i)) ==>
                 forall x <- d.ids :: x < i
    ensures OrderOk(committed, pending - AsSet(d.ids), log + [d])
  {
  }

  lemma SameRowsKeepOrder(committed: seq<Entry>, p: Outbox, q: Outbox, log: seq<Delivered>)
    requires OrderOk(committed, p, log) && SameRows(p, q)
    ensures OrderOk(committed, q, log)
  {
  }

  lemma DeleteKeepsOrder(committed: seq<Entry>, pending: Outbox, log: seq<Delivered>, gone: set<nat>)
    requires OrderOk(committed, pending, log)
    ensures OrderOk(committed, pending - gone, log)
  {
  }

  lemma PendingIsEntered(committed: seq<Entry>, pending: Outbox, events: History, done: set<nat>, dropped: set<nat>, i: nat)
    requires AccountsOk(committed, pending, events, done, dropped) && i in pending
    ensures Entered(committed, i, pending[i].key)
  {
    var k :| 0 <= k < |committed| && committed[k].id == i;
    assert Accounted(committed[k], pending, events, done, dropped);
    assert committed[k].key == pending[i].key;
  }

  // ----- it holds in every reachable state -----

  lemma HistoryInit(s: State)
    requires Init(s)
    ensures HistoryOk(s)
  {
  }

  lemma HistoryWorld(s: State, step: WorldStep)
    requires HistoryOk(s) && WorldEnabled(s, step)
    ensures HistoryOk(WorldApply(s, step))
  {
  }

  lemma HistoryCommit(s: State, t: nat)
    requires OutboxOk(s) && HistoryOk(s) && t in s.txns && s.txns[t].stage.Inserted?
    ensures var t := CommitEnqueue(s, t);
            RecordsOk(t.txns, t.nextId, t.committed, t.pending, t.events, t.log, t.dropped)
  {
    var x := s.txns[t];
    var e := Entry(x.stage.id, x.stage.eventId, x.key);
    var row := Pending(x.stage.eventId, x.key, x.payload, x.stage.found, x.started, x.started);
    CommitKeepsAccounts(s.committed, s.pending, s.events, DeliveredIds(s.log), s.dropped, e.id, row);
    assert !CommittedBy(s.committed, |s.committed|, e.id);
    CommitKeepsOrder(s.committed, s.pending, s.log, e, row);
  }

  lemma RecordsCollector(s: State, step: CollectorStep)
    requires OutboxOk(s) && HistoryOk(s) && CollectorEnabled(s, step)
    ensures var t := CollectorApply(s, step);
            RecordsOk(t.txns, t.nextId, t.committed, t.pending, t.events, t.log, t.dropped)
  {
    match step {
      case Commit(t) => HistoryCommit(s, t);
      case _ =>
    }
  }

  lemma HistoryDrop(s: State, gone: set<nat>, d: Disposition)
    requires OutboxOk(s) && HistoryOk(s) && gone <= s.pending.Keys && (d == Resolved || d == Cancelled)
    ensures RecordsOk(s.txns, s.nextId, s.committed, s.pending - gone, Mark(s.events, RowsWith(s.pending, gone), d),
                      s.log, s.dropped + gone)
  {
    SettleKeepsAccounts(s.committed, s.pending, s.events, DeliveredIds(s.log), s.dropped, gone, d);
    DeleteKeepsOrder(s.committed, s.pending, s.log, gone);
  }

  lemma RecordsTick(cfg: Config, s: State, step: TickStep)
    requires OutboxOk(s) && HistoryOk(s) && TickEnabled(cfg, s, step)
    ensures var t := TickApply(cfg, s, step);
            RecordsOk(t.txns, t.nextId, t.committed, t.pending, t.events, t.log, t.dropped)
  {
    match step {
      case PollWrite(owner) =>
        var row := InspectedRow(s.ws[s.phase.h], s.phase.w, s.phase.reply, owner, s.now);
        HistoryDrop(s, ResolvedBy(s.pending, s.phase.h, row), Resolved);
      case Cancel => HistoryDrop(s, Unwanted(s.pending, s.rules), Cancelled);
      case _ =>
    }
  }

  lemma RecordsAdmission(cfg: Config, s: State, step: AdmissionStep)
    requires OutboxOk(s) && HistoryOk(s) && AdmissionEnabled(cfg, s, step)
    ensures var t := AdmissionApply(cfg, s, step);
            RecordsOk(t.txns, t.nextId, t.committed, t.pending, t.events, t.log, t.dropped)
  {
    match step {
      case Claim =>
        AssigningKeepsRows(s.pending, s.phase.b.ids, s.phase.h);
        SameRowsKeepRecords(s, AssignTo(s.pending, s.phase.b.ids, s.phase.h));
      case _ =>
    }
  }

  lemma AccountsDeliver(s: State)
    requires OutboxOk(s) && HistoryOk(s) && s.phase.Sending? && s.phase.h in s.ws
    ensures var t := CommitDelivery(s);
            && AccountsOk(t.committed, t.pending, t.events, DeliveredIds(t.log), t.dropped)
            && FreshOk(t.txns, DeliveredIds(t.log), t.dropped, t.nextId)
  {
    var ids := s.phase.b.ids[..s.phase.n];
    DeliveredAppend(s.log, Delivered(s.phase.h, s.phase.b.key, ids, s.phase.b.seen, s.now, s.phase.f));
    assert AsSet(ids) <= s.pending.Keys;
    SettleKeepsAccounts(s.committed, s.pending, s.events, DeliveredIds(s.log), s.dropped, AsSet(ids),
                        if s.phase.w.seeded then Fed else Opened);
  }

  lemma OrderDeliver(s: State)
    requires OutboxOk(s) && HistoryOk(s) && s.phase.Sending? && s.phase.h in s.ws
    ensures var t := CommitDelivery(s); OrderOk(t.committed, t.pending, t.log)
  {
    var ids := s.phase.b.ids[..s.phase.n];
    var d := Delivered(s.phase.h, s.phase.b.key, ids, s.phase.b.seen, s.now, s.phase.f);
    forall x | x in ids
      ensures x in s.pending && s.pending[x].key == d.key && Entered(s.committed, x, d.key)
    {
      assert x in s.phase.b.ids;
      PendingIsEntered(s.committed, s.pending, s.events, DeliveredIds(s.log), s.dropped, x);
    }
    assert BatchIsHead(s.committed, s.pending, s.phase.b, s.now);
    DeliverKeepsOrder(s.committed, s.pending, s.log, d);
  }

  lemma RecordsDeliver(s: State)
    requires OutboxOk(s) && HistoryOk(s) && s.phase.Sending? && s.phase.h in s.ws
    ensures var t := CommitDelivery(s);
            RecordsOk(t.txns, t.nextId, t.committed, t.pending, t.events, t.log, t.dropped)
  {
    AccountsDeliver(s);
    OrderDeliver(s);
  }

  lemma SameRowsKeepRecords(s: State, q: Outbox)
    requires RecordsOk(s.txns, s.nextId, s.committed, s.pending, s.events, s.log, s.dropped) && SameRows(s.pending, q)
    ensures RecordsOk(s.txns, s.nextId, s.committed, q, s.events, s.log, s.dropped)
  {
    SameRowsKeepAccounts(s.committed, s.pending, q, s.events, DeliveredIds(s.log), s.dropped);
    SameRowsKeepOrder(s.committed, s.pending, q, s.log);
  }

  lemma RecordsMessage(cfg: Config, s: State, step: MessageStep)
    requires OutboxOk(s) && HistoryOk(s) && MessageEnabled(cfg, s, step)
    ensures var t := MessageApply(cfg, s, step);
            RecordsOk(t.txns, t.nextId, t.committed, t.pending, t.events, t.log, t.dropped)
  {
    match step {
      case InspectWrite(owner) =>
        var row := InspectedRow(s.ws[s.phase.h], s.phase.w, s.phase.reply, owner, s.now);
        HistoryDrop(s, ResolvedBy(s.pending, s.phase.h, row), Resolved);
      case Deliver => RecordsDeliver(s);
      case _ =>
    }
  }

  lemma HeadCollector(s: State, step: CollectorStep)
    requires OutboxOk(s) && HistoryOk(s) && CollectorEnabled(s, step)
    ensures var t := CollectorApply(s, step); HeadOk(t.committed, t.pending, t.phase, t.now)
  {
    hide EventsOk, ClosureOk;
    match step {
      case Commit(t) =>
        var e := Entry(s.txns[t].stage.id, s.txns[t].stage.eventId, s.txns[t].key);
        forall n: nat, i: nat
          ensures n <= |s.committed| ==> (CommittedBy(s.committed + [e], n, i) <==> CommittedBy(s.committed, n, i))
        {
          CommittedByAppend(s.committed, e, n, i);
        }
      case _ =>
    }
  }

  lemma HeadTick(cfg: Config, s: State, step: TickStep)
    requires OutboxOk(s) && HistoryOk(s) && TickEnabled(cfg, s, step)
    ensures var t := TickApply(cfg, s, step); HeadOk(t.committed, t.pending, t.phase, t.now)
  {
  }

  lemma HeadAdmission(cfg: Config, s: State, step: AdmissionStep)
    requires OutboxOk(s) && HistoryOk(s) && AdmissionEnabled(cfg, s, step)
    ensures var t := AdmissionApply(cfg, s, step); HeadOk(t.committed, t.pending, t.phase, t.now)
  {
  }

  lemma HeadMessage(cfg: Config, s: State, step: MessageStep)
    requires PhaseOk(s) && OutboxOk(s) && HistoryOk(s) && MessageEnabled(cfg, s, step)
    ensures var t := MessageApply(cfg, s, step); HeadOk(t.committed, t.pending, t.phase, t.now)
  {
    match step {
      case InspectWrite(owner) =>
        var row := InspectedRow(s.ws[s.phase.h], s.phase.w, s.phase.reply, owner, s.now);
        assert s.phase.reply.Up() ==> s.pending - ResolvedBy(s.pending, s.phase.h, row) == s.pending;
      case _ =>
    }
  }

  lemma HistoryDefer(s: State, ids: seq<nat>, until: Time)
    requires HistoryOk(s) && DeferEnabled(s, ids, until)
    ensures HistoryOk(DeferApply(s, ids, until))
  {
    var t := DeferApply(s, ids, until);
    DeferringKeepsRows(s.pending, ids, until);
    SameRowsKeepRecords(s, t.pending);
  }

  lemma HistoryStep(cfg: Config, s: State, step: Step)
    requires PhaseOk(s) && OutboxOk(s) && HistoryOk(s) && Enabled(cfg, s, step)
    ensures HistoryOk(Apply(cfg, s, step))
  {
    match step {
      case World(x) => HistoryWorld(s, x);
      case Collector(x) => RecordsCollector(s, x); HeadCollector(s, x);
      case Tick(x) => RecordsTick(cfg, s, x); HeadTick(cfg, s, x);
      case Admission(x) => RecordsAdmission(cfg, s, x); HeadAdmission(cfg, s, x);
      case Message(x) => RecordsMessage(cfg, s, x); HeadMessage(cfg, s, x);
      case Defer(ids, until) => HistoryDefer(s, ids, until);
    }
  }
}
