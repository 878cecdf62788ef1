/**
 The outbox and the history: every event is accounted for exactly once, and a closure and a
 concurrent enqueue never leave an event behind.
 */
module QueueOutbox {
  import opened Options
  import opened QueueTables
  import opened QueueProtocol
  import opened QueueSlots

  // ----- the invariant -----

  /** The group key carries the payload's identity, with a source just when grouped by host. */
  ghost predicate KeyOk(key: GroupKey, payload: Payload) {
    && payload.owner == key.owner != "" && payload.project == key.project
    && (key.source.Some? <==> key.grouping == ByHost)
  }

  /** An event is queued if and only if exactly one outbox row exists for it. */
  ghost predicate EventsOk(pending: Outbox, events: History) {
    && (forall i <- pending ::
          && pending[i].eventId in events && events[pending[i].eventId] == Queued
          && KeyOk(pending[i].key, pending[i].payload))
    && (forall i, j | i in pending && j in pending :: pending[i].eventId == pending[j].eventId ==> i == j)
    && (forall e <- events :: events[e] == Queued ==> exists i :: i in pending && pending[i].eventId == e)
  }

  /** The numbers an open transaction has drawn are not in any table, and not in another transaction. */
  ghost predicate TxnsOk(txns: map<nat, Txn>, pending: Outbox, events: History, nextEvent: nat, nextId: nat) {
    && (forall e <- events :: e < nextEvent)
    && (forall i <- pending :: i < nextId)
    && (forall t <- txns :: KeyOk(txns[t].key, txns[t].payload)
                            && Unused(txns[t].stage, pending, events, nextEvent, nextId))
    && (forall t, u | t in txns && u in txns && t != u :: Apart(txns[t].stage, txns[u].stage))
  }

  ghost predicate Unused(a: Stage, pending: Outbox, events: History, nextEvent: nat, nextId: nat) {
    && (a.Numbered? || a.Inserted? ==> a.eventId < nextEvent && a.eventId !in events)
    && (a.Inserted? ==> a.id < nextId && a.id !in pending)
  }

  ghost predicate Apart(a: Stage, b: Stage) {
    && ((a.Numbered? || a.Inserted?) && (b.Numbered? || b.Inserted?) ==> a.eventId != b.eventId)
    && (a.Inserted? && b.Inserted? ==> a.id != b.id)
  }

  /** The rows of a delivery are still there, unless its inspection has found the agent gone. */
  ghost predicate BatchOk(pending: Outbox, phase: Phase) {
    && (phase.Delivering() ==> phase.b.ids != [] && Ascending(phase.b.ids) && KeyOk(phase.b.key, phase.b.head))
    && (phase.Delivering() && (phase.Confirmed? ==> phase.reply.Up()) ==>
          forall i <- phase.b.ids :: i in pending && pending[i].key == phase.b.key)
    && (phase.Sending? ==> 1 <= phase.n <= |phase.b.ids|)
  }

  /** No pending event is assigned to a closed workstream unless it was created after the closure. */
  ghost predicate ClosureOk(ws: Workstreams, pending: Outbox, txns: map<nat, Txn>) {
    && (forall i <- pending :: pending[i].assignee.Some? ==>
          && pending[i].assignee.value in ws
          && var w := ws[pending[i].assignee.value];
             w.status == Closed ==> w.closedAt.Some? && w.closedAt.value < pending[i].createdAt)
    && (forall t <- txns :: !txns[t].stage.Begun? && txns[t].stage.found.Some? ==>
          txns[t].stage.found.value in ws && ws[txns[t].stage.found.value].status != Closed)
  }

  ghost predicate OutboxOk(s: State) {
    && EventsOk(s.pending, s.events) && TxnsOk(s.txns, s.pending, s.events, s.nextEvent, s.nextId)
    && BatchOk(s.pending, s.phase) && ClosureOk(s.ws, s.pending, s.txns)
  }

  // ----- what each write does -----

  /** Deleting rows and closing their events. */
  lemma DeleteKeepsEvents(pending: Outbox, events: History, gone: set<nat>, d: Disposition)
    requires EventsOk(pending, events) && d != Queued
    ensures EventsOk(pending - gone, Mark(events, RowsWith(pending, gone), d))
  {
    var rows := RowsWith(pending, gone);
    var after := Mark(events, rows, d);
    forall i | i in pending - gone
      ensures after[pending[i].eventId] == Queued
    {
      assert pending[i].eventId !in EventsOf(rows);
    }
    forall e | e in after && after[e] == Queued
      ensures exists i :: i in pending - gone && (pending - gone)[i].eventId == e
    {
      var i :| i in pending && pending[i].eventId == e;
      assert forall k <- rows :: rows[k].eventId in EventsOf(rows);
      assert i in gone ==> i in rows;
      assert (pending - gone)[i].eventId == e;
    }
  }

  lemma DeleteKeepsTxns(txns: map<nat, Txn>, pending: Outbox, events: History, nextEvent: nat, nextId: nat,
                        gone: set<nat>, d: Disposition)
    requires TxnsOk(txns, pending, events, nextEvent, nextId)
    ensures TxnsOk(txns, pending - gone, Mark(events, RowsWith(pending, gone), d), nextEvent, nextId)
  {
  }

  /** An update of assignees or due times leaves the rest of every row alone. */
  ghost predicate SameRows(p: Outbox, q: Outbox) {
    && p.Keys == q.Keys
    && forall i <- p :: q[i].eventId == p[i].eventId && q[i].key == p[i].key && q[i].payload == p[i].payload
                        && q[i].createdAt == p[i].createdAt
  }

  lemma AssigningKeepsRows(p: Outbox, ids: seq<nat>, h: Handle)
    ensures SameRows(p, AssignTo(p, ids, h))
  {
  }

  lemma DeferringKeepsRows(p: Outbox, ids: seq<nat>, t: Time)
    ensures SameRows(p, DeferUntil(p, ids, t))
  {
  }

  lemma SameRowsKeepEvents(p: Outbox, q: Outbox, events: History)
    requires SameRows(p, q) && EventsOk(p, events)
    ensures EventsOk(q, events)
  {
    forall e | e in events && events[e] == Queued
      ensures exists i :: i in q && q[i].eventId == e
    {
      var i :| i in p && p[i].eventId == e;
      assert q[i].eventId == e;
    }
  }

  lemma CommitKeepsEvents(pending: Outbox, events: History, id: nat, row: Pending)
    requires EventsOk(pending, events) && id !in pending && row.eventId !in events && KeyOk(row.key, row.payload)
    ensures EventsOk(pending[id := row], events[row.eventId := Queued])
  {
    var pending', events' := pending[id := row], events[row.eventId := Queued];
    forall e | e in events' && events'[e] == Queued
      ensures exists i :: i in pending' && pending'[i].eventId == e
    {
      if e == row.eventId {
        assert pending'[id].eventId == e;
      } else {
        var i :| i in pending && pending[i].eventId == e;
        assert pending'[i].eventId == e;
      }
    }
  }

  /** Writing row `h` once no transaction holds it, and deleting what its closure resolves. */
  lemma InspectionKeepsClosure(ws: Workstreams, pending: Outbox, txns: map<nat, Txn>, h: Handle, row: Workstream)
    requires ClosureOk(ws, pending, txns) && h in ws && ws[h].status != Closed
    requires forall t <- txns :: !txns[t].Locks(h)
    requires row.status == Closed ==> row.closedAt.Some?
    ensures ClosureOk(ws[h := row], pending - ResolvedBy(pending, h, row), txns)
  {
  }

  // ----- it holds in every reachable state -----

  lemma OutboxInit(s: State)
    requires Init(s)
    ensures OutboxOk(s)
  {
  }

  lemma OutboxWorld(s: State, step: WorldStep)
    requires OutboxOk(s) && WorldEnabled(s, step)
    ensures OutboxOk(WorldApply(s, step))
  {
  }

  lemma EventsCollector(s: State, step: CollectorStep)
    requires OutboxOk(s) && CollectorEnabled(s, step)
    ensures var t := CollectorApply(s, step); EventsOk(t.pending, t.events) && BatchOk(t.pending, t.phase)
  {
    match step {
      case Commit(x) =>
        var txn := s.txns[x];
        CommitKeepsEvents(s.pending, s.events, txn.stage.id,
          Pending(txn.stage.eventId, txn.key, txn.payload, txn.stage.found, txn.started, txn.started));
      case _ =>
    }
  }

  lemma NewStageKeepsTxns(txns: map<nat, Txn>, pending: Outbox, events: History, nextEvent: nat, nextId: nat,
                          t: nat, stage: Stage, nextEvent': nat, nextId': nat)
    requires TxnsOk(txns, pending, events, nextEvent, nextId) && t in txns
    requires nextEvent <= nextEvent' && nextId <= nextId'
    requires Unused(stage, pending, events, nextEvent', nextId')
    requires forall u | u in txns && u != t :: Apart(stage, txns[u].stage) && Apart(txns[u].stage, stage)
    ensures TxnsOk(txns[t := txns[t].(stage := stage)], pending, events, nextEvent', nextId')
  {
  }

  lemma CommitKeepsTxns(txns: map<nat, Txn>, pending: Outbox, events: History, nextEvent: nat, nextId: nat,
                        t: nat, row: Pending)
    requires TxnsOk(txns, pending, events, nextEvent, nextId)
    requires t in txns && txns[t].stage.Inserted? && row.eventId == txns[t].stage.eventId
    ensures TxnsOk(txns - {t}, pending[txns[t].stage.id := row], events[row.eventId := Queued], nextEvent, nextId)
  {
    forall u | u in txns && u != t
      ensures Unused(txns[u].stage, pending[txns[t].stage.id := row], events[row.eventId := Queued], nextEvent, nextId)
    {
      assert Apart(txns[u].stage, txns[t].stage);
    }
  }

  lemma TxnsCollector(s: State, step: CollectorStep)
    requires OutboxOk(s) && CollectorEnabled(s, step)
    ensures var t := CollectorApply(s, step); TxnsOk(t.txns, t.pending, t.events, t.nextEvent, t.nextId)
  {
    hide EventsOk, BatchOk, ClosureOk;
    match step {
      case LookUp(x, found) =>
        NewStageKeepsTxns(s.txns, s.pending, s.events, s.nextEvent, s.nextId, x, Looked(found), s.nextEvent, s.nextId);
      case NumberEvent(x) =>
        NewStageKeepsTxns(s.txns, s.pending, s.events, s.nextEvent, s.nextId, x,
                          Numbered(s.txns[x].stage.found, s.nextEvent), s.nextEvent + 1, s.nextId);
      case InsertRow(x) =>
        NewStageKeepsTxns(s.txns, s.pending, s.events, s.nextEvent, s.nextId, x,
                          Inserted(s.txns[x].stage.found, s.txns[x].stage.eventId, s.nextId), s.nextEvent, s.nextId + 1);
      case Commit(x) =>
        var txn := s.txns[x];
        CommitKeepsTxns(s.txns, s.pending, s.events, s.nextEvent, s.nextId, x,
          Pending(txn.stage.eventId, txn.key, txn.payload, txn.stage.found, txn.started, txn.started));
      case _ =>
    }
  }

  lemma ClosureCollector(s: State, step: CollectorStep)
    requires OutboxOk(s) && CollectorEnabled(s, step)
    ensures var t := CollectorApply(s, step); ClosureOk(t.ws, t.pending, t.txns)
  {
  }

  lemma UpdateKeepsClosure(ws: Workstreams, pending: Outbox, txns: map<nat, Txn>, h: Handle, row: Workstream)
    requires ClosureOk(ws, pending, txns) && row.status != Closed
    ensures ClosureOk(ws[h := row], pending, txns)
  {
  }

  lemma EventsTick(cfg: Config, s: State, step: TickStep)
    requires SlotsOk(s) && OutboxOk(s) && TickEnabled(cfg, s, step)
    ensures var t := TickApply(cfg, s, step); EventsOk(t.pending, t.events) && BatchOk(t.pending, t.phase)
  {
    match step {
      case PollWrite(owner) =>
        var row := InspectedRow(s.ws[s.phase.h], s.phase.w, s.phase.reply, owner, s.now);
        DeleteKeepsEvents(s.pending, s.events, ResolvedBy(s.pending, s.phase.h, row), Resolved);
      case Cancel => DeleteKeepsEvents(s.pending, s.events, Unwanted(s.pending, s.rules), Cancelled);
      case _ =>
    }
  }

  lemma TxnsTick(cfg: Config, s: State, step: TickStep)
    requires SlotsOk(s) && OutboxOk(s) && TickEnabled(cfg, s, step)
    ensures var t := TickApply(cfg, s, step); TxnsOk(t.txns, t.pending, t.events, t.nextEvent, t.nextId)
  {
    match step {
      case PollWrite(owner) =>
        var row := InspectedRow(s.ws[s.phase.h], s.phase.w, s.phase.reply, owner, s.now);
        DeleteKeepsTxns(s.txns, s.pending, s.events, s.nextEvent, s.nextId, ResolvedBy(s.pending, s.phase.h, row), Resolved);
      case Cancel => DeleteKeepsTxns(s.txns, s.pending, s.events, s.nextEvent, s.nextId, Unwanted(s.pending, s.rules), Cancelled);
      case _ =>
    }
  }

  lemma ClosureTick(cfg: Config, s: State, step: TickStep)
    requires SlotsOk(s) && OutboxOk(s) && TickEnabled(cfg, s, step)
    ensures var t := TickApply(cfg, s, step); ClosureOk(t.ws, t.pending, t.txns)
  {
    match step {
      case PollWrite(owner) =>
        var row := InspectedRow(s.ws[s.phase.h], s.phase.w, s.phase.reply, owner, s.now);
        InspectionKeepsClosure(s.ws, s.pending, s.txns, s.phase.h, row);
      case PollFail =>
        UpdateKeepsClosure(s.ws, s.pending, s.txns, s.phase.h, s.ws[s.phase.h].(checkedAt := Some(s.now)));
      case _ =>
    }
  }

  lemma EventsAdmission(cfg: Config, s: State, step: AdmissionStep)
    requires SlotsOk(s) && OutboxOk(s) && AdmissionEnabled(cfg, s, step)
    ensures var t := AdmissionApply(cfg, s, step); EventsOk(t.pending, t.events)
  {
    match step {
      case Claim =>
        AssigningKeepsRows(s.pending, s.phase.b.ids, s.phase.h);
        SameRowsKeepEvents(s.pending, AssignTo(s.pending, s.phase.b.ids, s.phase.h), s.events);
      case _ =>
    }
  }

  lemma BatchAdmission(cfg: Config, s: State, step: AdmissionStep)
    requires SlotsOk(s) && OutboxOk(s) && AdmissionEnabled(cfg, s, step)
    ensures var t := AdmissionApply(cfg, s, step); BatchOk(t.pending, t.phase)
  {
  }

  lemma TxnsAdmission(cfg: Config, s: State, step: AdmissionStep)
    requires SlotsOk(s) && OutboxOk(s) && AdmissionEnabled(cfg, s, step)
    ensures var t := AdmissionApply(cfg, s, step); TxnsOk(t.txns, t.pending, t.events, t.nextEvent, t.nextId)
  {
  }

  lemma ClosureAdmission(cfg: Config, s: State, step: AdmissionStep)
    requires SlotsOk(s) && OutboxOk(s) && AdmissionEnabled(cfg, s, step)
    ensures var t := AdmissionApply(cfg, s, step); ClosureOk(t.ws, t.pending, t.txns)
  {
    match step {
      case Reserve(h) => UpdateKeepsClosure(s.ws, s.pending, s.txns, h, NewRow(s.phase.b, s.now));
      case Attempt =>
        UpdateKeepsClosure(s.ws, s.pending, s.txns, s.phase.h, s.ws[s.phase.h].(attempted := true, status := Uncertain));
      case CreateOk =>
        UpdateKeepsClosure(s.ws, s.pending, s.txns, s.phase.h, s.ws[s.phase.h].(status := Open));
      case CreateRefused =>
        UpdateKeepsClosure(s.ws, s.pending, s.txns, s.phase.h, s.ws[s.phase.h].(attempted := false, status := Opening));
      case _ =>
    }
  }

  lemma EventsMessage(cfg: Config, s: State, step: MessageStep)
    requires SlotsOk(s) && OutboxOk(s) && MessageEnabled(cfg, s, step)
    ensures var t := MessageApply(cfg, s, step); EventsOk(t.pending, t.events)
  {
    match step {
      case InspectWrite(owner) =>
        var row := InspectedRow(s.ws[s.phase.h], s.phase.w, s.phase.reply, owner, s.now);
        DeleteKeepsEvents(s.pending, s.events, ResolvedBy(s.pending, s.phase.h, row), Resolved);
      case Deliver =>
        var gone := AsSet(s.phase.b.ids[..s.phase.n]);
        DeleteKeepsEvents(s.pending, s.events, gone, if s.phase.w.seeded then Fed else Opened);
      case _ =>
    }
  }

  lemma BatchMessage(cfg: Config, s: State, step: MessageStep)
    requires SlotsOk(s) && OutboxOk(s) && MessageEnabled(cfg, s, step)
    ensures var t := MessageApply(cfg, s, step); BatchOk(t.pending, t.phase)
  {
  }

  lemma TxnsMessage(cfg: Config, s: State, step: MessageStep)
    requires SlotsOk(s) && OutboxOk(s) && MessageEnabled(cfg, s, step)
    ensures var t := MessageApply(cfg, s, step); TxnsOk(t.txns, t.pending, t.events, t.nextEvent, t.nextId)
  {
    match step {
      case InspectWrite(owner) =>
        var row := InspectedRow(s.ws[s.phase.h], s.phase.w, s.phase.reply, owner, s.now);
        DeleteKeepsTxns(s.txns, s.pending, s.events, s.nextEvent, s.nextId, ResolvedBy(s.pending, s.phase.h, row), Resolved);
      case Deliver =>
        var gone := AsSet(s.phase.b.ids[..s.phase.n]);
        DeleteKeepsTxns(s.txns, s.pending, s.events, s.nextEvent, s.nextId, gone, if s.phase.w.seeded then Fed else Opened);
      case _ =>
    }
  }

  lemma ClosureMessage(cfg: Config, s: State, step: MessageStep)
    requires SlotsOk(s) && OutboxOk(s) && MessageEnabled(cfg, s, step)
    ensures var t := MessageApply(cfg, s, step); ClosureOk(t.ws, t.pending, t.txns)
  {
    match step {
      case InspectWrite(owner) =>
        var row := InspectedRow(s.ws[s.phase.h], s.phase.w, s.phase.reply, owner, s.now);
        InspectionKeepsClosure(s.ws, s.pending, s.txns, s.phase.h, row);
      case Deliver =>
        UpdateKeepsClosure(s.ws, s.pending, s.txns, s.phase.h,
                           s.ws[s.phase.h].(seeded := true, lastSentAt := Some(s.now)));
      case _ =>
    }
  }

  lemma SameRowsKeepTxns(txns: map<nat, Txn>, p: Outbox, q: Outbox, events: History, nextEvent: nat, nextId: nat)
    requires SameRows(p, q) && TxnsOk(txns, p, events, nextEvent, nextId)
    ensures TxnsOk(txns, q, events, nextEvent, nextId)
  {
  }

  lemma DeferringKeepsClosure(ws: Workstreams, pending: Outbox, txns: map<nat, Txn>, ids: seq<nat>, t: Time)
    requires ClosureOk(ws, pending, txns)
    ensures ClosureOk(ws, DeferUntil(pending, ids, t), txns)
  {
  }

  lemma DeferringKeepsOutbox(ws: Workstreams, pending: Outbox, events: History, txns: map<nat, Txn>,
                             nextEvent: nat, nextId: nat, ids: seq<nat>, t: Time)
    requires EventsOk(pending, events) && TxnsOk(txns, pending, events, nextEvent, nextId)
    requires ClosureOk(ws, pending, txns)
    ensures var q := DeferUntil(pending, ids, t);
            EventsOk(q, events) && TxnsOk(txns, q, events, nextEvent, nextId) && ClosureOk(ws, q, txns)
  {
    var q := DeferUntil(pending, ids, t);
    DeferringKeepsRows(pending, ids, t);
    SameRowsKeepEvents(pending, q, events);
    SameRowsKeepTxns(txns, pending, q, events, nextEvent, nextId);
    DeferringKeepsClosure(ws, pending, txns, ids, t);
  }

  lemma OutboxDefer(s: State, ids: seq<nat>, until: Time)
    requires OutboxOk(s) && DeferEnabled(s, ids, until)
    ensures OutboxOk(DeferApply(s, ids, until))
  {
    DeferringKeepsOutbox(s.ws, s.pending, s.events, s.txns, s.nextEvent, s.nextId, ids, until);
  }

  lemma OutboxStep(cfg: Config, s: State, step: Step)
    requires SlotsOk(s) && OutboxOk(s) && Enabled(cfg, s, step)
    ensures OutboxOk(Apply(cfg, s, step))
  {
    match step {
      case World(x) => OutboxWorld(s, x);
      case Collector(x) => EventsCollector(s, x); TxnsCollector(s, x); ClosureCollector(s, x);
      case Tick(x) => EventsTick(cfg, s, x); TxnsTick(cfg, s, x); ClosureTick(cfg, s, x);
      case Admission(x) => EventsAdmission(cfg, s, x); BatchAdmission(cfg, s, x); TxnsAdmission(cfg, s, x); ClosureAdmission(cfg, s, x);
      case Message(x) => EventsMessage(cfg, s, x); BatchMessage(cfg, s, x); TxnsMessage(cfg, s, x); ClosureMessage(cfg, s, x);
      case Defer(ids, until) => OutboxDefer(s, ids, until);
    }
  }
}
