/**
 The agent queue as a step system: collectors that enqueue, schedulers that compete for
 one session lock, and a remote service that answers late or not at all.

 One step is one committed statement (or transaction), one answer received, or one thing that
 happens at the remote.  Only the holder of the session lock writes workstreams and deletes
 pending rows; when its session ends, for whatever reason, its phase is gone and only the requests it
 issued live on.  A request counts as issued from the commit that authorizes it, so it may reach
 the remote at any later time, also after the scheduler that issued it crashed.
 */
module QueueProtocol {
  import opened Options
  import opened QueueTables

  // ----- the remote service -----

  datatype AgentState = Alive | Ended

  /** `origin` is the create request that made the agent; None for agents older than the run. */
  datatype Agent = Agent(state: AgentState, origin: Option<nat>)

  datatype Outcome = InFlight | Accepted | Refused

  datatype Create = Create(handle: Handle, outcome: Outcome)

  /** A message: the rows it carries, the inspection and the rule row its delivery relied on, and
      how many rows and deliveries had been committed when its rows were read and when it was issued. */
  datatype Feed = Feed(handle: Handle, key: GroupKey, ids: seq<nat>, payloads: seq<Payload>,
                       reply: Reply, rule: Rule, seen: nat, after: nat, outcome: Outcome)

  /** `DispatchResult` of an inspection: not ok, or ok with the fields of its meta. */
  datatype Reply =
    | Unknown
    | Known(gone: bool, live: bool, project: string, closedAt: Option<Time>)
  {
    predicate Gone() { Known? && gone }
    predicate Up() { Known? && !gone && live }
  }

  /** The assumption on the remote: an inspection that answers tells the truth. */
  predicate Truthful(agents: map<Handle, Agent>, h: Handle, reply: Reply) {
    reply.Known? ==>
      && h in agents
      && (reply.gone ==> agents[h].state == Ended)
      && (reply.Up() ==> agents[h].state == Alive)
  }

  // ----- an enqueue transaction -----

  datatype Stage =
    | Begun
    | Looked(found: Option<Handle>)
    | Numbered(found: Option<Handle>, eventId: nat)
    | Inserted(found: Option<Handle>, eventId: nat, id: nat)

  datatype Txn = Txn(started: Time, key: GroupKey, payload: Payload, stage: Stage)
  {
    /** Holds the share lock of row `h`. */
    predicate Locks(h: Handle) {
      !stage.Begun? && stage.found == Some(h)
    }
  }

  // ----- the lock holder -----

  /** The rows a delivery selected, the rule row it re-read, its first row's payload, and
      how many rows had been committed by then. */
  datatype Batch = Batch(key: GroupKey, ids: seq<nat>, rule: Rule, head: Payload, seen: nat)
  {
    function Wanted(): Criteria {
      Criteria(key.rule, key.target, head.owner, head.project, rule.grouping, key.source)
    }

    /** The frozen owner and project are still the rule's. */
    predicate IdentityHolds() {
      rule.owner == head.owner && rule.project == head.project
    }
  }

  /** Where the lock holder is; `w` is the copy of the row that it read. */
  datatype Phase =
    | Ready
    | Polled(h: Handle, w: Workstream, reply: Reply)
    | Read(b: Batch)
    | Admitted(b: Batch)
    | Found(b: Batch, h: Handle, w: Workstream)
    | Claimed(b: Batch, h: Handle, w: Workstream)
    | Creating(b: Batch, h: Handle, w: Workstream, c: nat)
    | Failing(b: Batch)
    | Inspected(b: Batch, h: Handle, w: Workstream, reply: Reply)
    | Confirmed(b: Batch, h: Handle, w: Workstream, reply: Reply)
    | Sending(b: Batch, h: Handle, w: Workstream, n: nat, f: nat)
  {
    predicate Delivering() { !Ready? && !Polled? }
  }

  // ----- the whole state -----

  datatype Entry = Entry(id: nat, eventId: nat, key: GroupKey)

  datatype Delivered = Delivered(handle: Handle, key: GroupKey, ids: seq<nat>, seen: nat, at: Time, feed: nat)

  datatype State = State(
    now: Time,
    // the database
    ws: Workstreams, pending: Outbox, events: History, rules: Rules,
    nextEvent: nat, nextId: nat,
    txns: map<nat, Txn>, lock: Option<nat>, phase: Phase,
    // the remote
    agents: map<Handle, Agent>, creates: seq<Create>, feeds: seq<Feed>,
    // what has happened: rows in the order of their commits, committed deliveries,
    // rows deleted by a closure or a cancellation, and handles reserved
    committed: seq<Entry>, log: seq<Delivered>, dropped: set<nat>, reserved: set<Handle>)

  datatype WorldStep =
    | Advance(to: Time)
    | EditRules(rules: Rules)
    | RemoteCreates(c: nat)
    | RemoteRefuses(c: nat)
    | RemoteEnds(h: Handle)
    | RemoteTakes(f: nat)
    | RemoteDeclines(f: nat)

  datatype CollectorStep =
    | Begin(t: nat, key: GroupKey, payload: Payload)
    | LookUp(t: nat, found: Option<Handle>)
    | NumberEvent(t: nat)
    | InsertRow(t: nat)
    | Commit(t: nat)
    | Abort(t: nat)

  /** The session lock and the tick outside deliveries. */
  datatype TickStep =
    | Acquire(p: nat)
    | Release
    | Poll(h: Handle, reply: Reply)
    | PollWrite(owner: string)
    | PollFail
    | Cancel
    | ReadRows(ids: seq<nat>)

  /** The first half of `_deliver`: find or reserve a workstream, and create its agent. */
  datatype AdmissionStep =
    | Adopt(h: Handle)
    | Admit
    | Reserve(h: Handle)
    | Claim
    | Attempt
    | CreateOk
    | CreateRefused

  /** The second half: inspect, send and commit. */
  datatype MessageStep =
    | Inspect(reply: Reply)
    | InspectWrite(owner: string)
    | Send(n: nat)
    | Deliver

  datatype Step =
    | World(world: WorldStep)
    | Collector(collector: CollectorStep)
    | Tick(tick: TickStep)
    | Admission(admission: AdmissionStep)
    | Message(message: MessageStep)
    | Defer(ids: seq<nat>, until: Time)

  predicate Unlocked(s: State, h: Handle) {
    forall t <- s.txns :: !s.txns[t].Locks(h)
  }

  predicate Due(w: Workstream, now: Time) {
    && w.status != Closed
    && (w.checkedAt.None? || w.checkedAt.value < now - 30 * SECOND)
    && (w.status != Opening || w.attempted)
  }

  /** A deferral touches all rows read or, when the remote refused the message, those sent. */
  predicate Deferrable(phase: Phase, ids: seq<nat>)
    requires phase.Delivering()
  {
    ids == phase.b.ids || (phase.Sending? && phase.n <= |phase.b.ids| && ids == phase.b.ids[..phase.n])
  }

  /** The last checks before a message goes out. */
  predicate MaySend(cfg: Config, b: Batch, w: Workstream, reply: Reply, now: Time) {
    && reply.Up() && reply.project == b.head.project
    && (w.lastSentAt.Some? ==> now - w.lastSentAt.value >= cfg.feedInterval)
  }

  predicate WorldEnabled(s: State, step: WorldStep) {
    match step
    case Advance(to) => s.now <= to
    case EditRules(_) => true
    case RemoteCreates(c) =>
      c < |s.creates| && s.creates[c].outcome == InFlight && s.creates[c].handle !in s.agents
    case RemoteRefuses(c) => c < |s.creates| && s.creates[c].outcome == InFlight
    case RemoteEnds(h) => h in s.agents
    case RemoteTakes(f) => f < |s.feeds| && s.feeds[f].outcome == InFlight && s.feeds[f].handle in s.agents
    case RemoteDeclines(f) => f < |s.feeds| && s.feeds[f].outcome == InFlight
  }

  predicate CollectorEnabled(s: State, step: CollectorStep) {
    match step
    case Begin(t, key, payload) =>
      && t !in s.txns
      && payload.owner == key.owner != "" && payload.project == key.project
      && (key.source.Some? <==> key.grouping == ByHost)
    case LookUp(t, found) =>
      && t in s.txns && s.txns[t].stage.Begun?
      && var key := s.txns[t].key;
         found.Some? ==>
           && found.value in s.ws
           && Matches(s.ws[found.value],
                      Criteria(key.rule, key.target, key.owner, key.project, key.grouping, key.source))
    case NumberEvent(t) => t in s.txns && s.txns[t].stage.Looked?
    case InsertRow(t) => t in s.txns && s.txns[t].stage.Numbered?
    case Commit(t) => t in s.txns && s.txns[t].stage.Inserted?
    case Abort(t) => t in s.txns
  }

  predicate TickEnabled(cfg: Config, s: State, step: TickStep) {
    match step
    case Acquire(p) => s.lock.None?
    case Release => s.lock.Some?
    case Poll(h, reply) =>
      && s.lock.Some? && s.phase.Ready? && h in s.ws && Due(s.ws[h], s.now) && Truthful(s.agents, h, reply)
    case PollWrite(owner) =>
      && s.lock.Some? && s.phase.Polled? && s.phase.h in s.ws && Unlocked(s, s.phase.h)
      && (s.phase.w.owner != "" ==> owner == s.phase.w.owner)
    case PollFail => s.lock.Some? && s.phase.Polled? && s.phase.h in s.ws
    case Cancel => s.lock.Some? && s.phase.Ready?
    case ReadRows(ids) =>
      && s.lock.Some? && s.phase.Ready? && ids != [] && ids[0] in s.pending
      && var row := s.pending[ids[0]];
         && IsHead(s.pending, row.key, cfg.batchSize, ids)
         && row.availableAt <= s.now
         && (row.key.rule, row.key.target) in s.rules
  }

  predicate AdmissionEnabled(cfg: Config, s: State, step: AdmissionStep) {
    match step
    case Adopt(h) =>
      && s.lock.Some? && s.phase.Read? && s.phase.b.IdentityHolds()
      && IsLatestMatch(s.ws, s.phase.b.Wanted(), h)
    case Admit =>
      && s.lock.Some? && s.phase.Read? && s.phase.b.IdentityHolds()
      && NoneMatches(s.ws, s.phase.b.Wanted())
      && |Unclosed(s.ws)| < cfg.maxActive && |OpenedAfter(s.ws, s.now - MINUTE)| < cfg.rateCeiling
    case Reserve(h) => s.lock.Some? && s.phase.Admitted? && h !in s.ws
    case Claim => s.lock.Some? && s.phase.Found?
    case Attempt =>
      s.lock.Some? && s.phase.Claimed? && s.phase.w.status == Opening && !s.phase.w.attempted && s.phase.h in s.ws
    case CreateOk =>
      && s.lock.Some? && s.phase.Creating? && s.phase.c < |s.creates| && s.creates[s.phase.c].outcome == Accepted
      && s.phase.h in s.ws
    case CreateRefused =>
      && s.lock.Some? && s.phase.Creating? && s.phase.c < |s.creates| && s.creates[s.phase.c].outcome == Refused
      && s.phase.h in s.ws
  }

  predicate MessageEnabled(cfg: Config, s: State, step: MessageStep) {
    match step
    case Inspect(reply) =>
      && s.lock.Some? && s.phase.Claimed? && !(s.phase.w.status == Opening && !s.phase.w.attempted)
      && Truthful(s.agents, s.phase.h, reply)
    case InspectWrite(owner) =>
      && s.lock.Some? && s.phase.Inspected? && s.phase.h in s.ws && Unlocked(s, s.phase.h)
      && (s.phase.w.owner != "" ==> owner == s.phase.w.owner)
    case Send(n) =>
      && s.lock.Some? && s.phase.Confirmed?
      && MaySend(cfg, s.phase.b, s.phase.w, s.phase.reply, s.now)
      && PacksTo(s.pending, s.phase.b.ids, n)
    case Deliver =>
      && s.lock.Some? && s.phase.Sending? && s.phase.f < |s.feeds| && s.feeds[s.phase.f].outcome == Accepted
      && s.phase.h in s.ws && s.phase.n <= |s.phase.b.ids|
  }

  /** `_defer`, from any point of a delivery. */
  predicate DeferEnabled(s: State, ids: seq<nat>, until: Time) {
    s.now <= until && s.lock.Some? && s.phase.Delivering() && Deferrable(s.phase, ids)
  }

  predicate Enabled(cfg: Config, s: State, step: Step) {
    match step
    case World(x) => WorldEnabled(s, x)
    case Collector(x) => CollectorEnabled(s, x)
    case Tick(x) => TickEnabled(cfg, s, x)
    case Admission(x) => AdmissionEnabled(cfg, s, x)
    case Message(x) => MessageEnabled(cfg, s, x)
    case Defer(ids, until) => DeferEnabled(s, ids, until)
  }

  // ----- effects with more than one part -----

  /** The row `_inspect` writes, from the row in the table and the copy `w` it holds. */
  function InspectedRow(row: Workstream, w: Workstream, reply: Reply, owner: string, now: Time): Workstream {
    var status := if reply.Gone() then Closed
                  else if reply.Known? && (w.status == Opening || w.status == Uncertain) then Open
                  else w.status;
    var project := if reply.Known? then reply.project else w.project;
    var written := row.(status := status, checkedAt := Some(now), owner := owner, project := project);
    if status != Closed then written
    else written.(closedAt := if reply.Known? && reply.closedAt.Some? then reply.closedAt else Some(now))
  }

  /** The outbox rows that go with row `h` when `_inspect` writes it: none unless it is now closed. */
  function ResolvedBy(pending: Outbox, h: Handle, row: Workstream): set<nat> {
    if row.status == Closed && row.closedAt.Some? then ClosedBacklog(pending, h, row.closedAt.value) else {}
  }

  /** `_inspect`: write the row and, if it closed, resolve its backlog. */
  function WriteInspection(s: State, h: Handle, w: Workstream, reply: Reply, owner: string): State
    requires h in s.ws
  {
    var row := InspectedRow(s.ws[h], w, reply, owner, s.now);
    DropRows(s.(ws := s.ws[h := row]), ResolvedBy(s.pending, h, row), Resolved)
  }

  /** Delete outbox rows and give their events a final disposition, in one transaction. */
  function DropRows(s: State, ids: set<nat>, d: Disposition): State {
    s.(pending := s.pending - ids,
       events := Mark(s.events, RowsWith(s.pending, ids), d),
       dropped := s.dropped + ids)
  }

  function NewRow(b: Batch, now: Time): Workstream {
    Workstream(b.key.rule, b.key.target, Some(b.head.source),
               Some(if b.key.source.Some? then b.key.source.value else b.head.source),
               b.head.owner, b.head.project, Opening, now, None, None, None, false, false)
  }

  function CommitEnqueue(s: State, t: nat): State
    requires t in s.txns && s.txns[t].stage.Inserted?
  {
    var x := s.txns[t];
    s.(events := s.events[x.stage.eventId := Queued],
       pending := s.pending[x.stage.id :=
         Pending(x.stage.eventId, x.key, x.payload, x.stage.found, x.started, x.started)],
       committed := s.committed + [Entry(x.stage.id, x.stage.eventId, x.key)],
       txns := s.txns - {t})
  }

  function MessageOf(s: State, n: nat): Feed
    requires s.phase.Confirmed? && n <= |s.phase.b.ids| && forall i <- s.phase.b.ids :: i in s.pending
  {
    var b := s.phase.b;
    Feed(s.phase.h, b.key, b.ids[..n], PayloadsOf(s.pending, b.ids)[..n], s.phase.reply, b.rule, b.seen, |s.log|, InFlight)
  }

  function CommitDelivery(s: State): State
    requires s.phase.Sending? && s.phase.n <= |s.phase.b.ids| && s.phase.h in s.ws
  {
    var Sending(b, h, w, n, f) := s.phase;
    var ids := b.ids[..n];
    var gone := AsSet(ids);
    s.(ws := s.ws[h := s.ws[h].(seeded := true, lastSentAt := Some(s.now))],
       events := Mark(s.events, RowsWith(s.pending, gone), if w.seeded then Fed else Opened),
       pending := s.pending - gone,
       log := s.log + [Delivered(h, b.key, ids, b.seen, s.now, f)],
       phase := Ready)
  }

  function WorldApply(s: State, step: WorldStep): State
    requires WorldEnabled(s, step)
  {
    match step
    case Advance(to) => s.(now := to)
    case EditRules(rules) => s.(rules := rules)
    case RemoteCreates(c) =>
      s.(creates := s.creates[c := s.creates[c].(outcome := Accepted)],
         agents := s.agents[s.creates[c].handle := Agent(Alive, Some(c))])
    case RemoteRefuses(c) => s.(creates := s.creates[c := s.creates[c].(outcome := Refused)])
    case RemoteEnds(h) => s.(agents := s.agents[h := s.agents[h].(state := Ended)])
    case RemoteTakes(f) => s.(feeds := s.feeds[f := s.feeds[f].(outcome := Accepted)])
    case RemoteDeclines(f) => s.(feeds := s.feeds[f := s.feeds[f].(outcome := Refused)])
  }

  function CollectorApply(s: State, step: CollectorStep): State
    requires CollectorEnabled(s, step)
  {
    match step
    case Begin(t, key, payload) => s.(txns := s.txns[t := Txn(s.now, key, payload, Begun)])
    case LookUp(t, found) => s.(txns := s.txns[t := s.txns[t].(stage := Looked(found))])
    case NumberEvent(t) =>
      s.(txns := s.txns[t := s.txns[t].(stage := Numbered(s.txns[t].stage.found, s.nextEvent))],
         nextEvent := s.nextEvent + 1)
    case InsertRow(t) =>
      s.(txns := s.txns[t := s.txns[t].(stage := Inserted(s.txns[t].stage.found, s.txns[t].stage.eventId, s.nextId))],
         nextId := s.nextId + 1)
    case Commit(t) => CommitEnqueue(s, t)
    case Abort(t) => s.(txns := s.txns - {t})
  }

  function TickApply(cfg: Config, s: State, step: TickStep): State
    requires TickEnabled(cfg, s, step)
  {
    match step
    case Acquire(p) => s.(lock := Some(p), phase := Ready)
    case Release => s.(lock := None, phase := Ready)
    case Poll(h, reply) => s.(phase := Polled(h, s.ws[h], reply))
    case PollWrite(owner) =>
      WriteInspection(s, s.phase.h, s.phase.w, s.phase.reply, owner).(phase := Ready)
    case PollFail =>
      s.(ws := s.ws[s.phase.h := s.ws[s.phase.h].(checkedAt := Some(s.now))], phase := Ready)
    case Cancel => DropRows(s, Unwanted(s.pending, s.rules), Cancelled)
    case ReadRows(ids) =>
      var row := s.pending[ids[0]];
      s.(phase := Read(Batch(row.key, ids, s.rules[(row.key.rule, row.key.target)], row.payload, |s.committed|)))
  }

  function AdmissionApply(cfg: Config, s: State, step: AdmissionStep): State
    requires AdmissionEnabled(cfg, s, step)
  {
    match step
    case Adopt(h) => s.(phase := Found(s.phase.b, h, s.ws[h]))
    case Admit => s.(phase := Admitted(s.phase.b))
    case Reserve(h) =>
      var row := NewRow(s.phase.b, s.now);
      s.(ws := s.ws[h := row], phase := Found(s.phase.b, h, row), reserved := s.reserved + {h})
    case Claim =>
      s.(pending := AssignTo(s.pending, s.phase.b.ids, s.phase.h), phase := Claimed(s.phase.b, s.phase.h, s.phase.w))
    case Attempt =>
      s.(ws := s.ws[s.phase.h := s.ws[s.phase.h].(attempted := true, status := Uncertain)],
         creates := s.creates + [Create(s.phase.h, InFlight)],
         phase := Creating(s.phase.b, s.phase.h, s.phase.w, |s.creates|))
    case CreateOk =>
      var row := s.ws[s.phase.h].(status := Open);
      s.(ws := s.ws[s.phase.h := row],
         phase := Claimed(s.phase.b, s.phase.h, s.phase.w.(status := Open, attempted := true)))
    case CreateRefused =>
      s.(ws := s.ws[s.phase.h := s.ws[s.phase.h].(attempted := false, status := Opening)],
         phase := Failing(s.phase.b))
  }

  function MessageApply(cfg: Config, s: State, step: MessageStep): State
    requires MessageEnabled(cfg, s, step)
  {
    match step
    case Inspect(reply) => s.(phase := Inspected(s.phase.b, s.phase.h, s.phase.w, reply))
    case InspectWrite(owner) =>
      WriteInspection(s, s.phase.h, s.phase.w, s.phase.reply, owner)
        .(phase := Confirmed(s.phase.b, s.phase.h, s.phase.w, s.phase.reply))
    case Send(n) =>
      s.(feeds := s.feeds + [MessageOf(s, n)],
         phase := Sending(s.phase.b, s.phase.h, s.phase.w, n, |s.feeds|))
    case Deliver => CommitDelivery(s)
  }

  function DeferApply(s: State, ids: seq<nat>, until: Time): State {
    s.(pending := DeferUntil(s.pending, ids, until), phase := Ready)
  }

  function Apply(cfg: Config, s: State, step: Step): State
    requires Enabled(cfg, s, step)
  {
    match step
    case World(x) => WorldApply(s, x)
    case Collector(x) => CollectorApply(s, x)
    case Tick(x) => TickApply(cfg, s, x)
    case Admission(x) => AdmissionApply(cfg, s, x)
    case Message(x) => MessageApply(cfg, s, x)
    case Defer(ids, until) => DeferApply(s, ids, until)
  }

  // ----- runs -----

  /** A fresh install or an upgrade: nothing in flight, an empty outbox, and imported
      workstreams whose live agents are all accounted for. */
  ghost predicate Init(s: State) {
    && s.pending == map[] && s.txns == map[] && s.lock == None && s.phase == Ready
    && s.creates == [] && s.feeds == [] && s.committed == [] && s.log == []
    && s.dropped == {} && s.reserved == {}
    && (forall e <- s.events :: e < s.nextEvent && s.events[e] != Queued)
    && (forall h <- s.ws ::
          && (s.ws[h].status == Opening <==> !s.ws[h].attempted)
          && (s.ws[h].seeded ==> s.ws[h].status == Open || s.ws[h].status == Closed)
          && s.ws[h].openedAt <= s.now)
    && (forall h <- s.agents ::
          && h in s.ws && s.ws[h].attempted && s.agents[h].origin == None
          && (s.agents[h].state == Alive ==> s.ws[h].status != Closed))
  }

  /** `tr` is a run: it starts in an initial state and makes the given steps. */
  ghost predicate IsRun(cfg: Config, tr: seq<State>, steps: seq<Step>) {
    && cfg.Valid() && |tr| == |steps| + 1 && Init(tr[0])
    && forall i | 0 <= i < |steps| :: Enabled(cfg, tr[i], steps[i]) && tr[i + 1] == Apply(cfg, tr[i], steps[i])
  }

  lemma ExtendRun(cfg: Config, tr: seq<State>, steps: seq<Step>, step: Step)
    requires IsRun(cfg, tr, steps) && Enabled(cfg, tr[|steps|], step)
    ensures IsRun(cfg, tr + [Apply(cfg, tr[|steps|], step)], steps + [step])
  {
  }
}
