/** The agent queue's guarantees over every run of the protocol. */
module QueueRuns {
  import opened Options
  import opened Sets
  import opened QueueTables
  import opened QueueProtocol
  import opened QueueSlots
  import opened QueueLimits
  import opened QueueOutbox
  import opened QueueOrder
  import opened QueueMessages
  import opened QueueIncidents

  ghost function Cap(cfg: Config, s: State): nat {
    if |Unclosed(s.ws)| > cfg.maxActive then |Unclosed(s.ws)| else cfg.maxActive
  }

  ghost predicate Invariant(cfg: Config, cap: nat, s: State) {
    SlotsOk(s) && LimitsOk(cfg, cap, s) && OutboxOk(s) && HistoryOk(s) && MessagesOk(cfg, s)
  }

  lemma InvariantStep(cfg: Config, cap: nat, s: State, step: Step)
    requires cfg.Valid() && Invariant(cfg, cap, s) && Enabled(cfg, s, step) && cfg.maxActive <= cap
    ensures Invariant(cfg, cap, Apply(cfg, s, step))
  {
    SlotsStep(cfg, s, step);
    LimitsStep(cfg, cap, s, step);
    OutboxStep(cfg, s, step);
    HistoryStep(cfg, s, step);
    MessagesStep(cfg, s, step);
  }

  /** Every state of every run keeps the invariant. */
  lemma {:induction false} InvariantAlways(cfg: Config, tr: seq<State>, steps: seq<Step>, i: nat)
    requires IsRun(cfg, tr, steps) && i < |tr|
    ensures Invariant(cfg, Cap(cfg, tr[0]), tr[i])
  {
    if i == 0 {
      SlotsInit(tr[0]);
      OutboxInit(tr[0]);
      HistoryInit(tr[0]);
      MessagesInit(cfg, tr[0]);
      assert forall t: Time :: OpenedInMinute(tr[0].ws, {}, t) == {};
    } else {
      InvariantAlways(cfg, tr, steps, i - 1);
      InvariantStep(cfg, Cap(cfg, tr[0]), tr[i - 1], steps[i - 1]);
    }
  }

  lemma PhaseAlways(cfg: Config, tr: seq<State>, steps: seq<Step>, i: nat)
    requires IsRun(cfg, tr, steps) && i < |tr|
    ensures PhaseOk(tr[i])
  {
    InvariantAlways(cfg, tr, steps, i);
  }

  lemma OutboxAlways(cfg: Config, tr: seq<State>, steps: seq<Step>, i: nat)
    requires IsRun(cfg, tr, steps) && i < |tr|
    ensures OutboxOk(tr[i])
  {
    InvariantAlways(cfg, tr, steps, i);
  }

  lemma HistoryAlways(cfg: Config, tr: seq<State>, steps: seq<Step>, i: nat)
    requires IsRun(cfg, tr, steps) && i < |tr|
    ensures HistoryOk(tr[i])
  {
    InvariantAlways(cfg, tr, steps, i);
  }

  // ----- slots -----

  ghost function LiveAgents(s: State): set<Handle> {
    set h | h in s.agents && s.agents[h].state == Alive
  }

  /** Whatever is lost, late or retried: every live agent holds an unclosed row, and neither rows nor
      agents ever exceed the larger of the starting count and the limit. */
  lemma SlotCap(cfg: Config, tr: seq<State>, steps: seq<Step>, i: nat)
    requires IsRun(cfg, tr, steps) && i < |tr|
    ensures LiveAgents(tr[i]) <= Unclosed(tr[i].ws)
    ensures |LiveAgents(tr[i])| <= |Unclosed(tr[i].ws)| <= Cap(cfg, tr[0])
  {
    InvariantAlways(cfg, tr, steps, i);
    SubsetSize(LiveAgents(tr[i]), Unclosed(tr[i].ws));
  }

  /** No minute sees more reservations than the ceiling. */
  lemma ReservationRate(cfg: Config, tr: seq<State>, steps: seq<Step>, i: nat, t: Time)
    requires IsRun(cfg, tr, steps) && i < |tr|
    ensures |OpenedInMinute(tr[i].ws, tr[i].reserved, t)| <= if cfg.rateCeiling > 0 then cfg.rateCeiling else 0
  {
    InvariantAlways(cfg, tr, steps, i);
  }

  /** A handle is asked for again only after the remote refused it, so it is created at most once. */
  lemma CreatedOnce(cfg: Config, tr: seq<State>, steps: seq<Step>, i: nat, c: nat, d: nat)
    requires IsRun(cfg, tr, steps) && i < |tr|
    requires c < d < |tr[i].creates| && tr[i].creates[c].handle == tr[i].creates[d].handle
    ensures tr[i].creates[c].outcome == Refused
  {
    InvariantAlways(cfg, tr, steps, i);
  }

  /** A row is opening exactly while no undecided or accepted creation exists for it. */
  lemma StatusTellsAttempt(cfg: Config, tr: seq<State>, steps: seq<Step>, i: nat, h: Handle)
    requires IsRun(cfg, tr, steps) && i < |tr| && h in tr[i].ws
    ensures tr[i].ws[h].status == Opening <==> !tr[i].ws[h].attempted
    ensures tr[i].ws[h].seeded ==> tr[i].ws[h].status == Open || tr[i].ws[h].status == Closed
    ensures tr[i].ws[h].status == Opening ==>
              h !in tr[i].agents
              && forall c | 0 <= c < |tr[i].creates| && tr[i].creates[c].handle == h :: tr[i].creates[c].outcome == Refused
  {
    InvariantAlways(cfg, tr, steps, i);
  }

  /** No workstream row disappears, moves to another rule or target, or reopens. */
  ghost predicate RowsPersist(ws: Workstreams, ws': Workstreams) {
    forall h <- ws ::
      && h in ws' && ws'[h].rule == ws[h].rule && ws'[h].target == ws[h].target
      && (ws[h].status == Closed ==> ws'[h].status == Closed)
  }

  lemma PersistWorld(s: State, step: WorldStep)
    requires PhaseOk(s) && WorldEnabled(s, step)
    ensures RowsPersist(s.ws, WorldApply(s, step).ws)
  {
  }

  lemma PersistCollector(s: State, step: CollectorStep)
    requires PhaseOk(s) && CollectorEnabled(s, step)
    ensures RowsPersist(s.ws, CollectorApply(s, step).ws)
  {
  }

  lemma PersistTick(cfg: Config, s: State, step: TickStep)
    requires PhaseOk(s) && TickEnabled(cfg, s, step)
    ensures RowsPersist(s.ws, TickApply(cfg, s, step).ws)
  {
  }

  lemma PersistAdmission(cfg: Config, s: State, step: AdmissionStep)
    requires PhaseOk(s) && AdmissionEnabled(cfg, s, step)
    ensures RowsPersist(s.ws, AdmissionApply(cfg, s, step).ws)
  {
  }

  lemma PersistMessage(cfg: Config, s: State, step: MessageStep)
    requires PhaseOk(s) && MessageEnabled(cfg, s, step)
    ensures RowsPersist(s.ws, MessageApply(cfg, s, step).ws)
  {
  }

  lemma RowsPersistStep(cfg: Config, s: State, step: Step)
    requires PhaseOk(s) && Enabled(cfg, s, step)
    ensures RowsPersist(s.ws, Apply(cfg, s, step).ws)
  {
    match step {
      case World(x) => PersistWorld(s, x);
      case Collector(x) => PersistCollector(s, x);
      case Tick(x) => PersistTick(cfg, s, x);
      case Admission(x) => PersistAdmission(cfg, s, x);
      case Message(x) => PersistMessage(cfg, s, x);
      case Defer(_, _) =>
    }
  }

  lemma PersistTransitive(a: Workstreams, b: Workstreams, c: Workstreams)
    requires RowsPersist(a, b) && RowsPersist(b, c)
    ensures RowsPersist(a, c)
  {
  }

  lemma {:induction false} ClosedIsFinal(cfg: Config, tr: seq<State>, steps: seq<Step>, i: nat, j: nat)
    requires IsRun(cfg, tr, steps) && i <= j < |tr|
    ensures RowsPersist(tr[i].ws, tr[j].ws)
    decreases j - i
  {
    if i < j {
      ClosedIsFinal(cfg, tr, steps, i, j - 1);
      PhaseAlways(cfg, tr, steps, j - 1);
      RowsPersistStep(cfg, tr[j - 1], steps[j - 1]);
      PersistTransitive(tr[i].ws, tr[j - 1].ws, tr[j].ws);
    }
  }

  // ----- events -----

  /** An event is queued just when exactly one outbox row holds it. */
  lemma QueuedIffPending(cfg: Config, tr: seq<State>, steps: seq<Step>, i: nat, e: nat)
    requires IsRun(cfg, tr, steps) && i < |tr| && e in tr[i].events
    ensures tr[i].events[e] == Queued <==>
              exists r :: r in tr[i].pending && tr[i].pending[r].eventId == e
                          && forall q <- tr[i].pending :: tr[i].pending[q].eventId == e ==> q == r
  {
    InvariantAlways(cfg, tr, steps, i);
  }

  ghost predicate SettledStay(before: History, after: History) {
    forall e <- before :: e in after && (before[e] != Queued ==> after[e] == before[e])
  }

  lemma MarkKeepsSettled(pending: Outbox, events: History, gone: set<nat>, d: Disposition)
    requires EventsOk(pending, events)
    ensures SettledStay(events, Mark(events, RowsWith(pending, gone), d))
  {
  }

  lemma SettledWorld(s: State, step: WorldStep)
    requires OutboxOk(s) && WorldEnabled(s, step)
    ensures SettledStay(s.events, WorldApply(s, step).events)
  {
  }

  lemma SettledCollector(s: State, step: CollectorStep)
    requires OutboxOk(s) && CollectorEnabled(s, step)
    ensures SettledStay(s.events, CollectorApply(s, step).events)
  {
  }

  lemma SettledTick(cfg: Config, s: State, step: TickStep)
    requires OutboxOk(s) && TickEnabled(cfg, s, step)
    ensures SettledStay(s.events, TickApply(cfg, s, step).events)
  {
    match step {
      case PollWrite(owner) =>
        var row := InspectedRow(s.ws[s.phase.h], s.phase.w, s.phase.reply, owner, s.now);
        MarkKeepsSettled(s.pending, s.events, ResolvedBy(s.pending, s.phase.h, row), Resolved);
      case Cancel => MarkKeepsSettled(s.pending, s.events, Unwanted(s.pending, s.rules), Cancelled);
      case _ =>
    }
  }

  lemma SettledAdmission(cfg: Config, s: State, step: AdmissionStep)
    requires OutboxOk(s) && AdmissionEnabled(cfg, s, step)
    ensures SettledStay(s.events, AdmissionApply(cfg, s, step).events)
  {
  }

  lemma SettledMessage(cfg: Config, s: State, step: MessageStep)
    requires OutboxOk(s) && MessageEnabled(cfg, s, step)
    ensures SettledStay(s.events, MessageApply(cfg, s, step).events)
  {
    match step {
      case InspectWrite(owner) =>
        var row := InspectedRow(s.ws[s.phase.h], s.phase.w, s.phase.reply, owner, s.now);
        MarkKeepsSettled(s.pending, s.events, ResolvedBy(s.pending, s.phase.h, row), Resolved);
      case Deliver =>
        MarkKeepsSettled(s.pending, s.events, AsSet(s.phase.b.ids[..s.phase.n]),
                         if s.phase.w.seeded then Fed else Opened);
      case _ =>
    }
  }

  lemma SettledStep(cfg: Config, s: State, step: Step)
    requires OutboxOk(s) && Enabled(cfg, s, step)
    ensures SettledStay(s.events, Apply(cfg, s, step).events)
  {
    match step {
      case World(x) => SettledWorld(s, x);
      case Collector(x) => SettledCollector(s, x);
      case Tick(x) => SettledTick(cfg, s, x);
      case Admission(x) => SettledAdmission(cfg, s, x);
      case Message(x) => SettledMessage(cfg, s, x);
      case Defer(_, _) =>
    }
  }

  lemma SettledTransitive(a: History, b: History, c: History)
    requires SettledStay(a, b) && SettledStay(b, c)
    ensures SettledStay(a, c)
  {
  }

  /** Once opened, fed, resolved or cancelled, an event never changes again. */
  lemma {:induction false} DispositionIsFinal(cfg: Config, tr: seq<State>, steps: seq<Step>, i: nat, j: nat)
    requires IsRun(cfg, tr, steps) && i <= j < |tr|
    ensures SettledStay(tr[i].events, tr[j].events)
    decreases j - i
  {
    if i < j {
      DispositionIsFinal(cfg, tr, steps, i, j - 1);
      OutboxAlways(cfg, tr, steps, j - 1);
      SettledStep(cfg, tr[j - 1], steps[j - 1]);
      SettledTransitive(tr[i].events, tr[j - 1].events, tr[j].events);
    }
  }

  lemma {:induction false} DeliveredFrom(log: seq<Delivered>, x: nat)
    requires x in DeliveredIds(log)
    ensures exists a :: 0 <= a < |log| && x in log[a].ids
  {
    if x !in AsSet(log[|log| - 1].ids) {
      DeliveredFrom(log[..|log| - 1], x);
      var a :| 0 <= a < |log| - 1 && x in log[..|log| - 1][a].ids;
      assert x in log[a].ids;
    }
  }

  /** No event is lost: a committed event waits in the outbox, was dropped by a closure or a
      cancellation, or was in a message that the remote accepted. */
  lemma NoEventLost(cfg: Config, tr: seq<State>, steps: seq<Step>, i: nat, k: nat)
    requires IsRun(cfg, tr, steps) && i < |tr| && k < |tr[i].committed|
    ensures var s := tr[i];
            var e := s.committed[k];
            && e.eventId in s.events
            && match s.events[e.eventId]
               case Queued => e.id in s.pending && s.pending[e.id].eventId == e.eventId && s.pending[e.id].key == e.key
               case Resolved => e.id in s.dropped
               case Cancelled => e.id in s.dropped
               case _ => exists f :: 0 <= f < |s.feeds| && s.feeds[f].outcome == Accepted && e.id in s.feeds[f].ids
  {
    InvariantAlways(cfg, tr, steps, i);
    var s := tr[i];
    var e := s.committed[k];
    assert Accounted(e, s.pending, s.events, DeliveredIds(s.log), s.dropped);
    if e.id in DeliveredIds(s.log) {
      DeliveredFrom(s.log, e.id);
      var a :| 0 <= a < |s.log| && e.id in s.log[a].ids;
      assert e.id in s.feeds[s.log[a].feed].ids;
    }
  }

  /** The race between a closure and an enqueue leaves nothing behind: no pending event is assigned to
      a closed workstream unless it was created after the closure. */
  lemma NothingBehindClosure(cfg: Config, tr: seq<State>, steps: seq<Step>, i: nat, r: nat)
    requires IsRun(cfg, tr, steps) && i < |tr|
    requires r in tr[i].pending && tr[i].pending[r].assignee.Some?
    ensures var h := tr[i].pending[r].assignee.value;
            h in tr[i].ws
            && (tr[i].ws[h].status == Closed ==>
                  tr[i].ws[h].closedAt.Some? && tr[i].ws[h].closedAt.value < tr[i].pending[r].createdAt)
  {
    InvariantAlways(cfg, tr, steps, i);
  }

  /** A closure resolves exactly the events assigned to its workstream and created no later than it closed: their
      rows go, their history says resolved, and every other row and event stays as it was. */
  lemma ClosureResolves(s: State, h: Handle, w: Workstream, reply: Reply, owner: string, r: nat)
    requires OutboxOk(s) && h in s.ws && reply.Gone() && r in s.pending
    ensures var t := WriteInspection(s, h, w, reply, owner);
            && t.ws[h].status == Closed && t.ws[h].closedAt.Some?
            && (reply.closedAt.Some? ==> t.ws[h].closedAt == reply.closedAt)
            && var resolved := s.pending[r].assignee == Some(h) && s.pending[r].createdAt <= t.ws[h].closedAt.value;
               && (r in t.pending <==> !resolved)
               && (r in t.pending ==> t.pending[r] == s.pending[r])
               && s.pending[r].eventId in t.events
               && t.events[s.pending[r].eventId] == if resolved then Resolved else Queued
    ensures var t := WriteInspection(s, h, w, reply, owner);
            forall e <- s.events :: s.events[e] != Queued ==> e in t.events && t.events[e] == s.events[e]
  {
    var row := InspectedRow(s.ws[h], w, reply, owner, s.now);
    MarkKeepsSettled(s.pending, s.events, ResolvedBy(s.pending, h, row), Resolved);
    var rows := RowsWith(s.pending, ResolvedBy(s.pending, h, row));
    assert r in rows ==> rows[r].eventId in EventsOf(rows);
  }

  // ----- order -----

  /** Of two deliveries of a group, the later one brings only larger numbers, except for rows that were
      committed after the earlier one had read its batch; and no row is delivered twice. */
  lemma DeliveredInOrder(cfg: Config, tr: seq<State>, steps: seq<Step>, i: nat, a: nat, b: nat, x: nat, y: nat)
    requires IsRun(cfg, tr, steps) && i < |tr|
    requires a < b < |tr[i].log| && x in tr[i].log[a].ids && y in tr[i].log[b].ids
    requires tr[i].log[a].key == tr[i].log[b].key
    ensures x != y
    ensures y < x ==> !CommittedBy(tr[i].committed, tr[i].log[a].seen, y)
    ensures Ascending(tr[i].log[a].ids) && Ascending(tr[i].log[b].ids)
  {
    InvariantAlways(cfg, tr, steps, i);
  }

  // ----- messages -----

  /** Every message is what its delivery promised, is never a repeat of a recorded delivery, and starts no
      earlier than an earlier message of its group, late commits aside. */
  lemma MessagesAreSafe(cfg: Config, tr: seq<State>, steps: seq<Step>, i: nat, f: nat)
    requires IsRun(cfg, tr, steps) && i < |tr| && f < |tr[i].feeds|
    ensures FeedOk(tr[i].feeds[f], tr[i].ws, tr[i].agents)
    ensures forall a, x | 0 <= a < tr[i].feeds[f].after && a < |tr[i].log| && x in tr[i].log[a].ids ::
              x !in tr[i].feeds[f].ids
    ensures forall e, y | 0 <= e < f && y in tr[i].feeds[f].ids && tr[i].feeds[e].key == tr[i].feeds[f].key ::
              tr[i].feeds[e].ids != [] && (y < tr[i].feeds[e].ids[0] ==> !CommittedBy(tr[i].committed, tr[i].feeds[e].seen, y))
  {
    InvariantAlways(cfg, tr, steps, i);
  }

  /** Recorded sends on one handle are at least the feed interval apart. */
  lemma SendsAreSpaced(cfg: Config, tr: seq<State>, steps: seq<Step>, i: nat, a: nat, b: nat)
    requires IsRun(cfg, tr, steps) && i < |tr|
    requires a < b < |tr[i].log| && tr[i].log[a].handle == tr[i].log[b].handle
    ensures tr[i].log[b].at - tr[i].log[a].at >= cfg.feedInterval
  {
    InvariantAlways(cfg, tr, steps, i);
  }

  // ----- incidents -----

  lemma {:induction false} IncidentsAlways(g: int -> Grouping, cfg: Config, tr: seq<State>, steps: seq<Step>, i: nat)
    requires IsRun(cfg, tr, steps) && i < |tr|
    requires forall r <- tr[0].rules :: tr[0].rules[r].grouping == g(r.0)
    requires forall j | 0 <= j < |steps| :: Steady(g, tr[j], steps[j])
    ensures IncidentsOk(g, tr[i])
  {
    if i > 0 {
      hide IncidentsOk, HistoryOk, MessagesOk, LimitsOk, TxnsOk, EventsOk, ClosureOk, RowsOk, CreatesOk, AgentsOk, TablesOk;
      IncidentsAlways(g, cfg, tr, steps, i - 1);
      InvariantAlways(cfg, tr, steps, i - 1);
      IncidentsStep(g, cfg, Cap(cfg, tr[0]), tr[i - 1], steps[i - 1]);
    }
  }

  /** However many creations time out or are refused, one incident has one unclosed reservation. */
  lemma OneAgentPerIncident(g: int -> Grouping, cfg: Config, tr: seq<State>, steps: seq<Step>, i: nat, h: Handle, k: Handle)
    requires IsRun(cfg, tr, steps) && i < |tr|
    requires forall r <- tr[0].rules :: tr[0].rules[r].grouping == g(r.0)
    requires forall j | 0 <= j < |steps| :: Steady(g, tr[j], steps[j])
    requires h in tr[i].reserved && k in tr[i].reserved && h in tr[i].ws && k in tr[i].ws
    requires tr[i].ws[h].status != Closed && tr[i].ws[k].status != Closed
    requires SameIncident(tr[i].ws[h], tr[i].ws[k], g(tr[i].ws[h].rule))
    ensures h == k
  {
    IncidentsAlways(g, cfg, tr, steps, i);
  }
}
