/**
 What is sent: to whom, on whose behalf, how often, and that it is not sent again once recorded.
 */
module QueueMessages {
  import opened Options
  import opened QueueTables
  import opened QueueProtocol
  import opened QueueSlots
  import opened QueueOutbox
  import opened QueueOrder

  // ----- the invariant -----

  /** The copy `w` is the row of the batch's rule, target and owner, who are still the rule's. */
  ghost predicate MatchOk(phase: Phase) {
    match phase
    case Admitted(b) => b.IdentityHolds()
    case Found(b, _, w) => b.IdentityHolds() && RowOf(w, b.key)
    case Claimed(b, _, w) => b.IdentityHolds() && RowOf(w, b.key)
    case Creating(b, _, w, _) => b.IdentityHolds() && RowOf(w, b.key)
    case Inspected(b, _, w, _) => b.IdentityHolds() && RowOf(w, b.key)
    case Confirmed(b, _, w, _) => b.IdentityHolds() && RowOf(w, b.key)
    case Sending(b, _, w, _, _) => b.IdentityHolds() && RowOf(w, b.key)
    case _ => true
  }

  ghost predicate RowOf(w: Workstream, key: GroupKey) {
    w.rule == key.rule && w.target == key.target && w.owner == key.owner
  }

  /** A message goes to an agent found alive in the right project by the same delivery, whose row
      and whose every event have the rule, target, owner and project of the group. */
  ghost predicate FeedOk(m: Feed, ws: Workstreams, agents: map<Handle, Agent>) {
    && m.handle in ws && RowOf(ws[m.handle], m.key) && m.key.owner != "" && m.handle in agents
    && m.reply.Up() && m.reply.project == m.key.project
    && m.rule.owner == m.key.owner && m.rule.project == m.key.project
    && m.ids != [] && Ascending(m.ids) && |m.payloads| == |m.ids|
    && forall p <- m.payloads :: p.owner == m.key.owner && p.project == m.key.project
  }

  ghost predicate FeedsOk(feeds: seq<Feed>, ws: Workstreams, agents: map<Handle, Agent>) {
    forall f | 0 <= f < |feeds| :: FeedOk(feeds[f], ws, agents)
  }

  /** A message never repeats a recorded delivery, and never goes back before the first row of an
      earlier message of its group, except for rows committed after that one was read. */
  ghost predicate RepeatsOk(feeds: seq<Feed>, pending: Outbox, log: seq<Delivered>, committed: seq<Entry>) {
    NotRepeated(feeds, log) && NotBehind(feeds, pending, committed) && NoneBehind(feeds, committed)
  }

  ghost predicate NotRepeated(feeds: seq<Feed>, log: seq<Delivered>) {
    && (forall f | 0 <= f < |feeds| :: feeds[f].ids != [] && feeds[f].after <= |log|)
    && (forall f, a, x | 0 <= f < |feeds| && 0 <= a < feeds[f].after && a < |log| && x in log[a].ids :: x !in feeds[f].ids)
  }

  ghost predicate NotBehind(feeds: seq<Feed>, pending: Outbox, committed: seq<Entry>) {
    && (forall f | 0 <= f < |feeds| :: feeds[f].ids != [] && feeds[f].seen <= |committed|)
    && (forall f, i | 0 <= f < |feeds| && i in pending ::
          pending[i].key == feeds[f].key && CommittedBy(committed, feeds[f].seen, i) ==> feeds[f].ids[0] <= i)
  }

  ghost predicate NoneBehind(feeds: seq<Feed>, committed: seq<Entry>) {
    && (forall f | 0 <= f < |feeds| :: feeds[f].ids != [] && feeds[f].seen <= |committed|)
    && (forall f, g, y | 0 <= f < g < |feeds| && y in feeds[g].ids ::
          feeds[f].key == feeds[g].key && CommittedBy(committed, feeds[f].seen, y) ==> feeds[f].ids[0] <= y)
  }

  /** A recorded delivery was accepted. */
  ghost predicate AcceptedOk(feeds: seq<Feed>, log: seq<Delivered>, phase: Phase) {
    && (forall a | 0 <= a < |log| ::
          && log[a].feed < |feeds|
          && var m := feeds[log[a].feed];
             m.outcome == Accepted && m.handle == log[a].handle && m.key == log[a].key && m.ids == log[a].ids)
    && (phase.Sending? ==>
          && phase.f < |feeds| && phase.n <= |phase.b.ids|
          && var m := feeds[phase.f];
             m.handle == phase.h && m.key == phase.b.key && m.ids == phase.b.ids[..phase.n])
  }

  /** Recorded sends on one handle keep the feed interval. */
  ghost predicate PaceOk(cfg: Config, ws: Workstreams, log: seq<Delivered>, phase: Phase, now: Time) {
    && (forall a | 0 <= a < |log| ::
          && log[a].handle in ws && ws[log[a].handle].lastSentAt.Some?
          && log[a].at <= ws[log[a].handle].lastSentAt.value)
    && (forall a, b | 0 <= a < b < |log| ::
          log[a].handle == log[b].handle ==> log[b].at - log[a].at >= cfg.feedInterval)
    && (phase.Sending? && phase.w.lastSentAt.Some? ==> now - phase.w.lastSentAt.value >= cfg.feedInterval)
  }

  ghost predicate MessagesOk(cfg: Config, s: State) {
    && MatchOk(s.phase) && FeedsOk(s.feeds, s.ws, s.agents)
    && RepeatsOk(s.feeds, s.pending, s.log, s.committed) && AcceptedOk(s.feeds, s.log, s.phase)
    && PaceOk(cfg, s.ws, s.log, s.phase, s.now)
  }

  // ----- what each write does -----

  /** Rule and target of a row never change, and its owner only from empty. */
  ghost predicate SameIdentity(was: Workstream, row: Workstream) {
    row.rule == was.rule && row.target == was.target && (was.owner != "" ==> row.owner == was.owner)
  }

  ghost predicate Stable(was: Workstream, row: Workstream) {
    SameIdentity(was, row) && row.lastSentAt == was.lastSentAt
  }

  lemma StableKeepsFeeds(feeds: seq<Feed>, ws: Workstreams, agents: map<Handle, Agent>, h: Handle, row: Workstream)
    requires FeedsOk(feeds, ws, agents) && h in ws && SameIdentity(ws[h], row)
    ensures FeedsOk(feeds, ws[h := row], agents)
  {
  }

  lemma StableKeepsPace(cfg: Config, ws: Workstreams, log: seq<Delivered>, phase: Phase, now: Time,
                        h: Handle, row: Workstream)
    requires PaceOk(cfg, ws, log, phase, now) && (h in ws ==> Stable(ws[h], row))
    ensures PaceOk(cfg, ws[h := row], log, phase, now)
  {
  }

  lemma CommitKeepsRepeats(feeds: seq<Feed>, pending: Outbox, log: seq<Delivered>, committed: seq<Entry>,
                           e: Entry, row: Pending)
    requires RepeatsOk(feeds, pending, log, committed) && !CommittedBy(committed, |committed|, e.id)
    ensures RepeatsOk(feeds, pending[e.id := row], log, committed + [e])
  {
    forall n: nat, i: nat
      ensures n <= |committed| ==> (CommittedBy(committed + [e], n, i) <==> CommittedBy(committed, n, i))
    {
      CommittedByAppend(committed, e, n, i);
    }
    assert forall n: nat :: n <= |committed| ==> !CommittedBy(committed, n, e.id);
  }

  lemma SameRowsKeepRepeats(feeds: seq<Feed>, p: Outbox, q: Outbox, log: seq<Delivered>, committed: seq<Entry>)
    requires RepeatsOk(feeds, p, log, committed) && SameRows(p, q)
    ensures RepeatsOk(feeds, q, log, committed)
  {
  }

  lemma DeleteKeepsRepeats(feeds: seq<Feed>, pending: Outbox, log: seq<Delivered>, committed: seq<Entry>, gone: set<nat>)
    requires RepeatsOk(feeds, pending, log, committed)
    ensures RepeatsOk(feeds, pending - gone, log, committed)
  {
  }

  lemma DeliverKeepsRepeats(feeds: seq<Feed>, pending: Outbox, log: seq<Delivered>, committed: seq<Entry>, d: Delivered)
    requires RepeatsOk(feeds, pending, log, committed)
    ensures RepeatsOk(feeds, pending - AsSet(d.ids), log + [d], committed)
  {
  }

  lemma DeliverKeepsPace(cfg: Config, ws: Workstreams, log: seq<Delivered>, phase: Phase, now: Time, d: Delivered,
                         row: Workstream)
    requires PaceOk(cfg, ws, log, phase, now) && d.at == now && d.handle in ws
    requires ws[d.handle].lastSentAt.Some? ==> now - ws[d.handle].lastSentAt.value >= cfg.feedInterval >= 0
    requires row.lastSentAt == Some(now)
    ensures PaceOk(cfg, ws[d.handle := row], log + [d], Ready, now)
  {
  }

  lemma SendNotRepeated(feeds: seq<Feed>, log: seq<Delivered>, m: Feed)
    requires NotRepeated(feeds, log) && m.ids != [] && m.after == |log|
    requires forall x <- m.ids :: x !in DeliveredIds(log)
    ensures NotRepeated(feeds + [m], log)
  {
    forall a, x | 0 <= a < |log| && x in log[a].ids
      ensures x !in m.ids
    {
      DeliveredHas(log, a, x);
    }
  }

  lemma SendNoneBehind(feeds: seq<Feed>, pending: Outbox, committed: seq<Entry>, m: Feed)
    requires NotBehind(feeds, pending, committed) && NoneBehind(feeds, committed) && m.ids != [] && m.seen <= |committed|
    requires forall x <- m.ids :: x in pending && pending[x].key == m.key
    ensures NoneBehind(feeds + [m], committed)
  {
  }

  lemma SendKeepsRepeats(feeds: seq<Feed>, pending: Outbox, log: seq<Delivered>, committed: seq<Entry>, m: Feed)
    requires RepeatsOk(feeds, pending, log, committed)
    requires m.ids != [] && m.seen <= |committed| && m.after == |log|
    requires forall x <- m.ids :: x in pending && pending[x].key == m.key
    requires pending.Keys !! DeliveredIds(log)
    requires forall i <- pending ::
               (pending[i].key == m.key && CommittedBy(committed, m.seen, i)) ==> m.ids[0] <= i
    ensures RepeatsOk(feeds + [m], pending, log, committed)
  {
    hide NotRepeated, NoneBehind;
    SendNotRepeated(feeds, log, m);
    SendNoneBehind(feeds, pending, committed, m);
  }

  lemma {:induction false} DeliveredHas(log: seq<Delivered>, a: nat, x: nat)
    requires a < |log| && x in log[a].ids
    ensures x in DeliveredIds(log)
  {
    if a < |log| - 1 {
      DeliveredHas(log[..|log| - 1], a, x);
    }
  }

  // ----- it holds in every reachable state -----

  lemma MessagesInit(cfg: Config, s: State)
    requires Init(s)
    ensures MessagesOk(cfg, s)
  {
  }

  lemma MessagesWorld(cfg: Config, s: State, step: WorldStep)
    requires MessagesOk(cfg, s) && WorldEnabled(s, step)
    ensures MessagesOk(cfg, WorldApply(s, step))
  {
  }

  lemma MessagesCollector(cfg: Config, s: State, step: CollectorStep)
    requires OutboxOk(s) && HistoryOk(s) && MessagesOk(cfg, s) && CollectorEnabled(s, step)
    ensures MessagesOk(cfg, CollectorApply(s, step))
  {
    match step {
      case Commit(t) =>
        var x := s.txns[t];
        CommitKeepsRepeats(s.feeds, s.pending, s.log, s.committed, Entry(x.stage.id, x.stage.eventId, x.key),
          Pending(x.stage.eventId, x.key, x.payload, x.stage.found, x.started, x.started));
      case _ =>
    }
  }

  lemma MessagesPollWrite(cfg: Config, s: State, owner: string)
    requires SlotsOk(s) && MessagesOk(cfg, s) && TickEnabled(cfg, s, PollWrite(owner))
    ensures MessagesOk(cfg, TickApply(cfg, s, PollWrite(owner)))
  {
    hide NotRepeated, NotBehind, NoneBehind;
    var row := InspectedRow(s.ws[s.phase.h], s.phase.w, s.phase.reply, owner, s.now);
    DeleteKeepsRepeats(s.feeds, s.pending, s.log, s.committed, ResolvedBy(s.pending, s.phase.h, row));
    StableKeepsFeeds(s.feeds, s.ws, s.agents, s.phase.h, row);
    StableKeepsPace(cfg, s.ws, s.log, s.phase, s.now, s.phase.h, row);
  }

  lemma MessagesTick(cfg: Config, s: State, step: TickStep)
    requires SlotsOk(s) && MessagesOk(cfg, s) && TickEnabled(cfg, s, step)
    ensures MessagesOk(cfg, TickApply(cfg, s, step))
  {
    hide NotRepeated, NotBehind, NoneBehind;
    match step {
      case PollWrite(owner) => MessagesPollWrite(cfg, s, owner);
      case PollFail =>
        var row := s.ws[s.phase.h].(checkedAt := Some(s.now));
        StableKeepsFeeds(s.feeds, s.ws, s.agents, s.phase.h, row);
        StableKeepsPace(cfg, s.ws, s.log, s.phase, s.now, s.phase.h, row);
      case Cancel => DeleteKeepsRepeats(s.feeds, s.pending, s.log, s.committed, Unwanted(s.pending, s.rules));
      case _ =>
    }
  }

  lemma MatchAdmission(cfg: Config, s: State, step: AdmissionStep)
    requires SlotsOk(s) && OutboxOk(s) && MessagesOk(cfg, s) && AdmissionEnabled(cfg, s, step)
    ensures var t := AdmissionApply(cfg, s, step);
            MatchOk(t.phase) && RepeatsOk(t.feeds, t.pending, t.log, t.committed) && AcceptedOk(t.feeds, t.log, t.phase)
  {
    match step {
      case Claim =>
        AssigningKeepsRows(s.pending, s.phase.b.ids, s.phase.h);
        SameRowsKeepRepeats(s.feeds, s.pending, AssignTo(s.pending, s.phase.b.ids, s.phase.h), s.log, s.committed);
      case _ =>
    }
  }

  lemma RowsAdmission(cfg: Config, s: State, step: AdmissionStep)
    requires SlotsOk(s) && MessagesOk(cfg, s) && AdmissionEnabled(cfg, s, step)
    ensures var t := AdmissionApply(cfg, s, step);
            FeedsOk(t.feeds, t.ws, t.agents) && PaceOk(cfg, t.ws, t.log, t.phase, t.now)
  {
    match step {
      case Reserve(h) => StableKeepsPace(cfg, s.ws, s.log, s.phase, s.now, h, NewRow(s.phase.b, s.now));
      case Attempt =>
        var row := s.ws[s.phase.h].(attempted := true, status := Uncertain);
        StableKeepsFeeds(s.feeds, s.ws, s.agents, s.phase.h, row);
        StableKeepsPace(cfg, s.ws, s.log, s.phase, s.now, s.phase.h, row);
      case CreateOk =>
        var row := s.ws[s.phase.h].(status := Open);
        StableKeepsFeeds(s.feeds, s.ws, s.agents, s.phase.h, row);
        StableKeepsPace(cfg, s.ws, s.log, s.phase, s.now, s.phase.h, row);
      case CreateRefused =>
        var row := s.ws[s.phase.h].(attempted := false, status := Opening);
        StableKeepsFeeds(s.feeds, s.ws, s.agents, s.phase.h, row);
        StableKeepsPace(cfg, s.ws, s.log, s.phase, s.now, s.phase.h, row);
      case _ =>
    }
  }

  lemma MessagesInspectWrite(cfg: Config, s: State, owner: string)
    requires PhaseOk(s) && MessagesOk(cfg, s) && s.phase.Inspected? && s.phase.h in s.ws
    requires s.phase.w.owner != "" ==> owner == s.phase.w.owner
    ensures var t := WriteInspection(s, s.phase.h, s.phase.w, s.phase.reply, owner);
            && FeedsOk(t.feeds, t.ws, t.agents) && RepeatsOk(t.feeds, t.pending, t.log, t.committed)
            && PaceOk(cfg, t.ws, t.log, s.phase, t.now)
  {
    var row := InspectedRow(s.ws[s.phase.h], s.phase.w, s.phase.reply, owner, s.now);
    StableKeepsFeeds(s.feeds, s.ws, s.agents, s.phase.h, row);
    StableKeepsPace(cfg, s.ws, s.log, s.phase, s.now, s.phase.h, row);
    DeleteKeepsRepeats(s.feeds, s.pending, s.log, s.committed, ResolvedBy(s.pending, s.phase.h, row));
  }

  lemma SentIsSafe(cfg: Config, s: State, n: nat)
    requires PhaseOk(s) && OutboxOk(s) && MatchOk(s.phase) && FeedsOk(s.feeds, s.ws, s.agents)
    requires s.phase.Confirmed? && MaySend(cfg, s.phase.b, s.phase.w, s.phase.reply, s.now)
    requires 1 <= n <= |s.phase.b.ids| && forall i <- s.phase.b.ids :: i in s.pending
    ensures FeedsOk(s.feeds + [MessageOf(s, n)], s.ws, s.agents)
  {
    var b, m := s.phase.b, MessageOf(s, n);
    forall p | p in m.payloads
      ensures p.owner == m.key.owner && p.project == m.key.project
    {
      var k :| 0 <= k < n && m.payloads[k] == p;
      assert p == s.pending[b.ids[k]].payload;
    }
    assert FeedOk(m, s.ws, s.agents);
  }

  lemma MessagesSend(cfg: Config, s: State, n: nat)
    requires PhaseOk(s) && OutboxOk(s) && HistoryOk(s) && MessagesOk(cfg, s)
    requires s.phase.Confirmed? && MaySend(cfg, s.phase.b, s.phase.w, s.phase.reply, s.now)
    requires 1 <= n <= |s.phase.b.ids| && forall i <- s.phase.b.ids :: i in s.pending
    ensures var feeds := s.feeds + [MessageOf(s, n)];
            FeedsOk(feeds, s.ws, s.agents) && RepeatsOk(feeds, s.pending, s.log, s.committed)
  {
    SentIsSafe(cfg, s, n);
    var b, m := s.phase.b, MessageOf(s, n);
    assert BatchIsHead(s.committed, s.pending, b, s.now) && b.ids[0] in b.ids;
    SendKeepsRepeats(s.feeds, s.pending, s.log, s.committed, m);
  }

  lemma MessagesDeliver(cfg: Config, s: State)
    requires PhaseOk(s) && OutboxOk(s) && MessagesOk(cfg, s) && cfg.feedInterval >= 0
    requires s.phase.Sending? && s.phase.f < |s.feeds| && s.feeds[s.phase.f].outcome == Accepted
    ensures var t := CommitDelivery(s);
            && FeedsOk(t.feeds, t.ws, t.agents) && RepeatsOk(t.feeds, t.pending, t.log, t.committed)
            && AcceptedOk(t.feeds, t.log, t.phase) && PaceOk(cfg, t.ws, t.log, t.phase, t.now)
  {
    var Sending(b, h, w, n, f) := s.phase;
    var d := Delivered(h, b.key, b.ids[..n], b.seen, s.now, f);
    var row := s.ws[h].(seeded := true, lastSentAt := Some(s.now));
    StableKeepsFeeds(s.feeds, s.ws, s.agents, h, row);
    DeliverKeepsRepeats(s.feeds, s.pending, s.log, s.committed, d);
    DeliverKeepsPace(cfg, s.ws, s.log, s.phase, s.now, d, row);
  }

  lemma MatchMessage(cfg: Config, s: State, step: MessageStep)
    requires PhaseOk(s) && OutboxOk(s) && MessagesOk(cfg, s) && MessageEnabled(cfg, s, step)
    ensures var t := MessageApply(cfg, s, step); MatchOk(t.phase) && AcceptedOk(t.feeds, t.log, t.phase)
  {
  }

  lemma RowsMessage(cfg: Config, s: State, step: MessageStep)
    requires PhaseOk(s) && OutboxOk(s) && HistoryOk(s) && MessagesOk(cfg, s) && MessageEnabled(cfg, s, step)
    requires cfg.feedInterval >= 0
    ensures var t := MessageApply(cfg, s, step);
            FeedsOk(t.feeds, t.ws, t.agents) && RepeatsOk(t.feeds, t.pending, t.log, t.committed)
  {
    hide RepeatsOk, FeedsOk, PaceOk, AcceptedOk;
    match step {
      case InspectWrite(owner) => MessagesInspectWrite(cfg, s, owner);
      case Send(n) => MessagesSend(cfg, s, n);
      case Deliver => MessagesDeliver(cfg, s);
      case Inspect(_) =>
    }
  }

  lemma PaceMessage(cfg: Config, s: State, step: MessageStep)
    requires PhaseOk(s) && OutboxOk(s) && MessagesOk(cfg, s) && MessageEnabled(cfg, s, step)
    requires cfg.feedInterval >= 0
    ensures var t := MessageApply(cfg, s, step); PaceOk(cfg, t.ws, t.log, t.phase, t.now)
  {
    hide RepeatsOk, FeedsOk, AcceptedOk;
    match step {
      case InspectWrite(owner) => MessagesInspectWrite(cfg, s, owner);
      case Deliver => MessagesDeliver(cfg, s);
      case _ =>
    }
  }

  lemma MessagesDefer(cfg: Config, s: State, ids: seq<nat>, until: Time)
    requires MessagesOk(cfg, s) && DeferEnabled(s, ids, until)
    ensures MessagesOk(cfg, DeferApply(s, ids, until))
  {
    var t := DeferApply(s, ids, until);
    DeferringKeepsRows(s.pending, ids, until);
    SameRowsKeepRepeats(s.feeds, s.pending, t.pending, s.log, s.committed);
  }

  lemma MessagesStep(cfg: Config, s: State, step: Step)
    requires SlotsOk(s) && OutboxOk(s) && HistoryOk(s) && MessagesOk(cfg, s) && Enabled(cfg, s, step)
    requires cfg.feedInterval >= 0
    ensures MessagesOk(cfg, Apply(cfg, s, step))
  {
    match step {
      case World(x) => MessagesWorld(cfg, s, x);
      case Collector(x) => MessagesCollector(cfg, s, x);
      case Tick(x) => MessagesTick(cfg, s, x);
      case Admission(x) => MatchAdmission(cfg, s, x); RowsAdmission(cfg, s, x);
      case Message(x) => MatchMessage(cfg, s, x); RowsMessage(cfg, s, x); PaceMessage(cfg, s, x);
      case Defer(ids, until) => MessagesDefer(cfg, s, ids, until);
    }
  }
}
