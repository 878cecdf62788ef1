/**
 Slots and creation: which workstream rows exist, what the lock holder's copy of a row is worth, and
 that no handle is ever created twice.
 */
module QueueSlots {
  import opened Options
  import opened QueueTables
  import opened QueueProtocol

  // ----- the invariant -----

  ghost predicate RowsOk(ws: Workstreams, now: Time) {
    forall h <- ws ::
      && (ws[h].status == Opening <==> !ws[h].attempted)
      && (ws[h].seeded ==> ws[h].status == Open || ws[h].status == Closed)
      && ws[h].openedAt <= now
  }

  /** Every request names a row, an undecided one an uncertain row without an agent; only a
      refused request is followed by another; an unattempted row has refused requests only. */
  ghost predicate CreatesOk(ws: Workstreams, agents: map<Handle, Agent>, creates: seq<Create>) {
    && (forall c | 0 <= c < |creates| ::
          && creates[c].handle in ws
          && (creates[c].outcome == InFlight ==>
                creates[c].handle !in agents && ws[creates[c].handle].status == Uncertain)
          && (creates[c].outcome == Accepted ==> creates[c].handle in agents)
          && (!ws[creates[c].handle].attempted ==> creates[c].outcome == Refused))
    && (forall c, d | 0 <= c < d < |creates| ::
          creates[c].handle == creates[d].handle ==> creates[c].outcome == Refused)
  }

  /** A live agent has an unclosed row, and an agent has one accepted request or predates them all. */
  ghost predicate AgentsOk(ws: Workstreams, agents: map<Handle, Agent>, creates: seq<Create>) {
    forall h <- agents ::
      && h in ws && ws[h].attempted
      && (agents[h].state == Alive ==> ws[h].status != Closed)
      && match agents[h].origin
         case Some(c) => c < |creates| && creates[c] == Create(h, Accepted)
         case None => forall c | 0 <= c < |creates| :: creates[c].handle != h
  }

  /** What stays true of an answer after it was given. */
  ghost predicate Learned(agents: map<Handle, Agent>, h: Handle, reply: Reply) {
    reply.Known? ==> h in agents && (reply.gone ==> agents[h].state == Ended)
  }

  /** The holder's copy of its row is current, up to what the holder itself wrote since. */
  ghost predicate PhaseOk(s: State) {
    && (s.lock.None? ==> s.phase.Ready?)
    && match s.phase
       case Polled(h, w, reply) =>
         h in s.ws && s.ws[h] == w && w.status != Closed && w.status != Opening && Learned(s.agents, h, reply)
       case Found(_, h, w) => h in s.ws && s.ws[h] == w && w.status != Closed
       case Claimed(_, h, w) => h in s.ws && s.ws[h] == w && w.status != Closed
       case Creating(_, h, w, c) =>
         && h in s.ws && s.ws[h] == w.(attempted := true, status := Uncertain)
         && w.status == Opening && c + 1 == |s.creates| && s.creates[c].handle == h
       case Inspected(_, h, w, reply) =>
         h in s.ws && s.ws[h] == w && w.status != Closed && w.status != Opening && Learned(s.agents, h, reply)
       case Confirmed(_, h, w, reply) =>
         && SameSends(s.ws, h, w) && Learned(s.agents, h, reply)
         && (reply.Up() ==> s.ws[h].status == Open)
       case Sending(_, h, w, _, _) => SameSends(s.ws, h, w) && s.ws[h].status == Open && h in s.agents
       case _ => true
  }

  /** The part of the copy that the rest of the delivery relies on. */
  ghost predicate SameSends(ws: Workstreams, h: Handle, w: Workstream) {
    && h in ws && ws[h].rule == w.rule && ws[h].target == w.target
    && ws[h].lastSentAt == w.lastSentAt && ws[h].seeded == w.seeded
    && (w.owner != "" ==> ws[h].owner == w.owner)
  }

  ghost predicate TablesOk(ws: Workstreams, now: Time, agents: map<Handle, Agent>, creates: seq<Create>) {
    RowsOk(ws, now) && CreatesOk(ws, agents, creates) && AgentsOk(ws, agents, creates)
  }

  ghost predicate SlotsOk(s: State) {
    TablesOk(s.ws, s.now, s.agents, s.creates) && PhaseOk(s)
  }

  // ----- what each write does to the tables -----

  /** A row may change its bookkeeping freely, but its status only once its agent exists,
      and only to closed once its agent has ended. */
  lemma UpdateKeepsTables(ws: Workstreams, now: Time, agents: map<Handle, Agent>, creates: seq<Create>,
                          h: Handle, row: Workstream)
    requires TablesOk(ws, now, agents, creates) && h in ws
    requires row.attempted == ws[h].attempted && row.openedAt == ws[h].openedAt
    requires row.status == Opening <==> !row.attempted
    requires row.seeded ==> row.status == Open || row.status == Closed
    requires row.status != ws[h].status ==> h in agents && (row.status == Closed ==> agents[h].state == Ended)
    ensures TablesOk(ws[h := row], now, agents, creates)
  {
  }

  lemma ReserveKeepsTables(ws: Workstreams, now: Time, agents: map<Handle, Agent>, creates: seq<Create>,
                           h: Handle, row: Workstream)
    requires TablesOk(ws, now, agents, creates) && h !in ws
    requires row.status == Opening && !row.attempted && !row.seeded && row.openedAt == now
    ensures TablesOk(ws[h := row], now, agents, creates)
  {
  }

  lemma AttemptKeepsTables(ws: Workstreams, now: Time, agents: map<Handle, Agent>, creates: seq<Create>, h: Handle)
    requires TablesOk(ws, now, agents, creates) && h in ws && !ws[h].attempted
    ensures TablesOk(ws[h := ws[h].(attempted := true, status := Uncertain)], now, agents,
                     creates + [Create(h, InFlight)])
  {
  }

  lemma RefusalKeepsTables(ws: Workstreams, now: Time, agents: map<Handle, Agent>, creates: seq<Create>, h: Handle)
    requires TablesOk(ws, now, agents, creates) && h in ws && ws[h].status == Uncertain
    requires creates != [] && creates[|creates| - 1] == Create(h, Refused)
    ensures TablesOk(ws[h := ws[h].(attempted := false, status := Opening)], now, agents, creates)
  {
  }

  lemma CreationKeepsTables(ws: Workstreams, now: Time, agents: map<Handle, Agent>, creates: seq<Create>, c: nat)
    requires TablesOk(ws, now, agents, creates) && c < |creates| && creates[c].outcome == InFlight
    ensures TablesOk(ws, now, agents[creates[c].handle := Agent(Alive, Some(c))],
                     creates[c := creates[c].(outcome := Accepted)])
  {
  }

  lemma InspectionKeepsTables(ws: Workstreams, now: Time, agents: map<Handle, Agent>, creates: seq<Create>,
                              h: Handle, w: Workstream, reply: Reply, owner: string)
    requires TablesOk(ws, now, agents, creates) && h in ws && ws[h] == w
    requires w.status != Closed && w.status != Opening && Learned(agents, h, reply)
    ensures TablesOk(ws[h := InspectedRow(ws[h], w, reply, owner, now)], now, agents, creates)
  {
    UpdateKeepsTables(ws, now, agents, creates, h, InspectedRow(ws[h], w, reply, owner, now));
  }

  // ----- it holds in every reachable state -----

  lemma SlotsInit(s: State)
    requires Init(s)
    ensures SlotsOk(s)
  {
  }

  lemma TablesWorld(s: State, step: WorldStep)
    requires SlotsOk(s) && WorldEnabled(s, step)
    ensures var t := WorldApply(s, step); TablesOk(t.ws, t.now, t.agents, t.creates)
  {
    match step {
      case RemoteCreates(c) => CreationKeepsTables(s.ws, s.now, s.agents, s.creates, c);
      case _ =>
    }
  }

  lemma PhaseWorld(s: State, step: WorldStep)
    requires SlotsOk(s) && WorldEnabled(s, step)
    ensures PhaseOk(WorldApply(s, step))
  {
  }

  lemma SlotsCollector(s: State, step: CollectorStep)
    requires SlotsOk(s) && CollectorEnabled(s, step)
    ensures SlotsOk(CollectorApply(s, step))
  {
  }

  lemma TablesTick(cfg: Config, s: State, step: TickStep)
    requires SlotsOk(s) && TickEnabled(cfg, s, step)
    ensures var t := TickApply(cfg, s, step); TablesOk(t.ws, t.now, t.agents, t.creates)
  {
    match step {
      case PollWrite(owner) => 
        InspectionKeepsTables(s.ws, s.now, s.agents, s.creates, s.phase.h, s.phase.w, s.phase.reply, owner);
      case PollFail =>
        UpdateKeepsTables(s.ws, s.now, s.agents, s.creates, s.phase.h,
                          s.ws[s.phase.h].(checkedAt := Some(s.now)));
      case _ =>
    }
  }

  lemma TablesAdmission(cfg: Config, s: State, step: AdmissionStep)
    requires SlotsOk(s) && AdmissionEnabled(cfg, s, step)
    ensures var t := AdmissionApply(cfg, s, step); TablesOk(t.ws, t.now, t.agents, t.creates)
  {
    match step {
      case Reserve(h) => ReserveKeepsTables(s.ws, s.now, s.agents, s.creates, h, NewRow(s.phase.b, s.now));
      case Attempt => AttemptKeepsTables(s.ws, s.now, s.agents, s.creates, s.phase.h);
      case CreateOk =>
        UpdateKeepsTables(s.ws, s.now, s.agents, s.creates, s.phase.h, s.ws[s.phase.h].(status := Open));
      case CreateRefused => RefusalKeepsTables(s.ws, s.now, s.agents, s.creates, s.phase.h);
      case _ =>
    }
  }

  lemma TablesMessage(cfg: Config, s: State, step: MessageStep)
    requires SlotsOk(s) && MessageEnabled(cfg, s, step)
    ensures var t := MessageApply(cfg, s, step); TablesOk(t.ws, t.now, t.agents, t.creates)
  {
    match step {
      case InspectWrite(owner) =>
        InspectionKeepsTables(s.ws, s.now, s.agents, s.creates, s.phase.h, s.phase.w, s.phase.reply, owner);
      case Deliver =>
        UpdateKeepsTables(s.ws, s.now, s.agents, s.creates, s.phase.h,
                          s.ws[s.phase.h].(seeded := true, lastSentAt := Some(s.now)));
      case _ =>
    }
  }

  lemma PhaseTick(cfg: Config, s: State, step: TickStep)
    requires SlotsOk(s) && TickEnabled(cfg, s, step)
    ensures PhaseOk(TickApply(cfg, s, step))
  {
  }

  lemma PhaseAdmission(cfg: Config, s: State, step: AdmissionStep)
    requires SlotsOk(s) && AdmissionEnabled(cfg, s, step)
    ensures PhaseOk(AdmissionApply(cfg, s, step))
  {
  }

  lemma PhaseMessage(cfg: Config, s: State, step: MessageStep)
    requires SlotsOk(s) && MessageEnabled(cfg, s, step)
    ensures PhaseOk(MessageApply(cfg, s, step))
  {
    match step {
      case InspectWrite(owner) =>
        var t := MessageApply(cfg, s, step);
        assert t.ws[s.phase.h] == InspectedRow(s.phase.w, s.phase.w, s.phase.reply, owner, s.now);
        assert t.phase == Confirmed(s.phase.b, s.phase.h, s.phase.w, s.phase.reply);
      case _ =>
    }
  }

  lemma SlotsStep(cfg: Config, s: State, step: Step)
    requires SlotsOk(s) && Enabled(cfg, s, step)
    ensures SlotsOk(Apply(cfg, s, step))
  {
    match step {
      case World(x) => TablesWorld(s, x); PhaseWorld(s, x);
      case Collector(x) => SlotsCollector(s, x);
      case Tick(x) => TablesTick(cfg, s, x); PhaseTick(cfg, s, x);
      case Admission(x) => TablesAdmission(cfg, s, x); PhaseAdmission(cfg, s, x);
      case Message(x) => TablesMessage(cfg, s, x); PhaseMessage(cfg, s, x);
      case Defer(_, _) =>
    }
  }
}
