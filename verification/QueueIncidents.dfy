/**
 One agent per incident: as long as no group formed by rule meets a rule that groups by host, and inspections
 report the project a workstream was opened in, no two unclosed reservations serve the same incident.
 */
module QueueIncidents {
  import opened Options
  import opened QueueTables
  import opened QueueProtocol
  import opened QueueSlots
  import opened QueueLimits
  import opened QueueOutbox

  /** Two workstreams of one incident: same rule, target, owner and project and, by host, same source. */
  ghost predicate SameIncident(v: Workstream, w: Workstream, grouping: Grouping) {
    && v.rule == w.rule && v.target == w.target && v.owner == w.owner && v.project == w.project
    && (grouping == ByRule || v.EffectiveSource() == w.EffectiveSource())
  }

  /** The group was formed by host, as all firings of semantic rules are, or its rule groups by rule. */
  predicate Findable(g: int -> Grouping, key: GroupKey) {
    g(key.rule) == ByRule || key.grouping == ByHost
  }

  /** A step that keeps every rule's grouping at `g` and every workstream's project. */
  ghost predicate Steady(g: int -> Grouping, s: State, step: Step) {
    match step
    case World(EditRules(rules)) => forall r <- rules :: rules[r].grouping == g(r.0)
    case Collector(Begin(_, key, _)) => Findable(g, key)
    case Tick(Poll(h, reply)) => reply.Known? && h in s.ws ==> reply.project == s.ws[h].project
    case Message(Inspect(reply)) => reply.Known? && s.phase.Claimed? ==> reply.project == s.phase.w.project
    case _ => true
  }

  // ----- the invariant -----

  ghost predicate GroupsOk(g: int -> Grouping, s: State) {
    && (forall r <- s.rules :: s.rules[r].grouping == g(r.0))
    && (forall t <- s.txns :: Findable(g, s.txns[t].key))
    && (forall i <- s.pending :: Findable(g, s.pending[i].key))
    && (s.phase.Delivering() ==> Findable(g, s.phase.b.key) && s.phase.b.rule.grouping == g(s.phase.b.key.rule))
    && (s.phase.Polled? || s.phase.Inspected? ==> (s.phase.reply.Known? ==> s.phase.reply.project == s.phase.w.project))
  }

  ghost predicate UniqueOk(g: int -> Grouping, ws: Workstreams, reserved: set<Handle>) {
    && (forall h <- reserved :: h in ws && ws[h].owner != "" && ws[h].groupSource.Some?)
    && forall h, k | h in reserved && k in reserved && h != k ::
         ws[h].status != Closed && ws[k].status != Closed ==> !SameIncident(ws[h], ws[k], g(ws[h].rule))
  }

  ghost predicate IncidentsOk(g: int -> Grouping, s: State) {
    GroupsOk(g, s) && UniqueOk(g, s.ws, s.reserved)
  }

  // ----- what each write does -----

  ghost predicate SamePlace(was: Workstream, row: Workstream) {
    && row.rule == was.rule && row.target == was.target && row.project == was.project
    && row.source == was.source && row.groupSource == was.groupSource
    && (was.owner != "" ==> row.owner == was.owner) && (was.status == Closed ==> row.status == Closed)
  }

  lemma UpdateKeepsUnique(g: int -> Grouping, ws: Workstreams, reserved: set<Handle>, h: Handle, row: Workstream)
    requires UniqueOk(g, ws, reserved) && h in ws && SamePlace(ws[h], row)
    ensures UniqueOk(g, ws[h := row], reserved)
  {
  }

  /** The reservation is the first of its incident, because the lookup found no match. */
  lemma ReservationKeepsUnique(g: int -> Grouping, ws: Workstreams, reserved: set<Handle>, b: Batch, h: Handle, now: Time)
    requires UniqueOk(g, ws, reserved) && h !in ws && NoneMatches(ws, b.Wanted()) && KeyOk(b.key, b.head)
    requires Findable(g, b.key) && b.rule.grouping == g(b.key.rule)
    ensures UniqueOk(g, ws[h := NewRow(b, now)], reserved + {h})
  {
    var row := NewRow(b, now);
    forall k | k in reserved && ws[k].status != Closed
      ensures !SameIncident(row, ws[k], g(row.rule)) && !SameIncident(ws[k], row, g(ws[k].rule))
    {
      assert !Matches(ws[k], b.Wanted());
    }
  }

  // ----- it holds along every steady run -----

  lemma IncidentsWorld(g: int -> Grouping, s: State, step: WorldStep)
    requires PhaseOk(s) && IncidentsOk(g, s) && WorldEnabled(s, step) && Steady(g, s, World(step))
    ensures IncidentsOk(g, WorldApply(s, step))
  {
  }

  lemma IncidentsCollector(g: int -> Grouping, s: State, step: CollectorStep)
    requires PhaseOk(s) && IncidentsOk(g, s) && CollectorEnabled(s, step) && Steady(g, s, Collector(step))
    ensures IncidentsOk(g, CollectorApply(s, step))
  {
  }

  lemma GroupsTick(g: int -> Grouping, cfg: Config, s: State, step: TickStep)
    requires PhaseOk(s) && GroupsOk(g, s) && TickEnabled(cfg, s, step) && Steady(g, s, Tick(step))
    ensures GroupsOk(g, TickApply(cfg, s, step))
  {
  }

  lemma GroupsAdmission(g: int -> Grouping, cfg: Config, s: State, step: AdmissionStep)
    requires PhaseOk(s) && GroupsOk(g, s) && AdmissionEnabled(cfg, s, step) && Steady(g, s, Admission(step))
    ensures GroupsOk(g, AdmissionApply(cfg, s, step))
  {
  }

  lemma GroupsMessage(g: int -> Grouping, cfg: Config, s: State, step: MessageStep)
    requires PhaseOk(s) && GroupsOk(g, s) && MessageEnabled(cfg, s, step) && Steady(g, s, Message(step))
    ensures GroupsOk(g, MessageApply(cfg, s, step))
  {
  }

  lemma UniqueTick(g: int -> Grouping, cfg: Config, s: State, step: TickStep)
    requires PhaseOk(s) && IncidentsOk(g, s) && TickEnabled(cfg, s, step)
    ensures var t := TickApply(cfg, s, step); UniqueOk(g, t.ws, t.reserved)
  {
    match step {
      case PollWrite(owner) =>
        UpdateKeepsUnique(g, s.ws, s.reserved, s.phase.h,
                          InspectedRow(s.ws[s.phase.h], s.phase.w, s.phase.reply, owner, s.now));
      case PollFail => UpdateKeepsUnique(g, s.ws, s.reserved, s.phase.h, s.ws[s.phase.h].(checkedAt := Some(s.now)));
      case _ =>
    }
  }

  lemma UniqueAdmission(g: int -> Grouping, cfg: Config, cap: nat, s: State, step: AdmissionStep)
    requires PhaseOk(s) && LimitsOk(cfg, cap, s) && BatchOk(s.pending, s.phase) && IncidentsOk(g, s)
    requires AdmissionEnabled(cfg, s, step)
    ensures var t := AdmissionApply(cfg, s, step); UniqueOk(g, t.ws, t.reserved)
  {
    match step {
      case Reserve(h) => ReservationKeepsUnique(g, s.ws, s.reserved, s.phase.b, h, s.now);
      case Attempt =>
        UpdateKeepsUnique(g, s.ws, s.reserved, s.phase.h, s.ws[s.phase.h].(attempted := true, status := Uncertain));
      case CreateOk => UpdateKeepsUnique(g, s.ws, s.reserved, s.phase.h, s.ws[s.phase.h].(status := Open));
      case CreateRefused =>
        UpdateKeepsUnique(g, s.ws, s.reserved, s.phase.h, s.ws[s.phase.h].(attempted := false, status := Opening));
      case _ =>
    }
  }

  lemma UniqueMessage(g: int -> Grouping, cfg: Config, s: State, step: MessageStep)
    requires PhaseOk(s) && IncidentsOk(g, s) && MessageEnabled(cfg, s, step)
    ensures var t := MessageApply(cfg, s, step); UniqueOk(g, t.ws, t.reserved)
  {
    match step {
      case InspectWrite(owner) =>
        UpdateKeepsUnique(g, s.ws, s.reserved, s.phase.h,
                          InspectedRow(s.ws[s.phase.h], s.phase.w, s.phase.reply, owner, s.now));
      case Deliver =>
        UpdateKeepsUnique(g, s.ws, s.reserved, s.phase.h,
                          s.ws[s.phase.h].(seeded := true, lastSentAt := Some(s.now)));
      case _ =>
    }
  }

  lemma IncidentsDefer(g: int -> Grouping, s: State, ids: seq<nat>, until: Time)
    requires IncidentsOk(g, s)
    ensures IncidentsOk(g, DeferApply(s, ids, until))
  {
  }

  lemma IncidentsStep(g: int -> Grouping, cfg: Config, cap: nat, s: State, step: Step)
    requires PhaseOk(s) && LimitsOk(cfg, cap, s) && BatchOk(s.pending, s.phase) && IncidentsOk(g, s)
    requires Enabled(cfg, s, step) && Steady(g, s, step)
    ensures IncidentsOk(g, Apply(cfg, s, step))
  {
    match step {
      case World(x) => IncidentsWorld(g, s, x);
      case Collector(x) => IncidentsCollector(g, s, x);
      case Tick(x) => GroupsTick(g, cfg, s, x); UniqueTick(g, cfg, s, x);
      case Admission(x) => GroupsAdmission(g, cfg, s, x); UniqueAdmission(g, cfg, cap, s, x);
      case Message(x) => GroupsMessage(g, cfg, s, x); UniqueMessage(g, cfg, s, x);
      case Defer(ids, until) => IncidentsDefer(g, s, ids, until);
    }
  }

  // ----- why the grouping and the project must stay -----

  /** The next delivery of a group finds the row reserved for it if and only if the rule now groups
      by rule or the group was formed by host: not when it went from rule to host in between. */
  lemma OwnReservationIsFound(b: Batch, h: Handle, now: Time)
    requires KeyOk(b.key, b.head) && b.IdentityHolds()
    ensures Matches(NewRow(b, now), b.Wanted()) <==> b.rule.grouping == ByRule || b.key.grouping == ByHost
  {
  }

  /** And it still finds the row after an inspection if and only if that did not find the agent gone and, if it
      found anything, reported the events' project. */
  lemma InspectedRowIsFound(b: Batch, w: Workstream, reply: Reply, owner: string, now: Time)
    requires Matches(w, b.Wanted()) && w.attempted && (w.owner != "" ==> owner == w.owner) && b.head.owner != ""
    ensures Matches(InspectedRow(w, w, reply, owner, now), b.Wanted()) <==>
              !reply.Gone() && (reply.Known? ==> reply.project == b.head.project)
  {
  }

  /** A group formed by rule, once the rule groups by host, matches no workstream at all: with a free
      slot its next delivery reserves a second one beside `k`, which already serves the incident. */
  lemma StrayGroupReservesAgain(cfg: Config, s: State, k: Handle, h: Handle)
    requires s.lock.Some? && s.phase.Read? && KeyOk(s.phase.b.key, s.phase.b.head) && s.phase.b.IdentityHolds()
    requires s.phase.b.key.grouping == ByRule && s.phase.b.rule.grouping == ByHost
    requires k in s.ws && s.ws[k].status != Closed && SameIncident(s.ws[k], NewRow(s.phase.b, s.now), ByHost)
    requires h !in s.ws
    ensures forall o: Handle :: !AdmissionEnabled(cfg, s, Adopt(o))
    ensures AdmissionEnabled(cfg, s, Admit) <==>
              |Unclosed(s.ws)| < cfg.maxActive && |OpenedAfter(s.ws, s.now - MINUTE)| < cfg.rateCeiling
    ensures AdmissionEnabled(cfg, s, Admit) ==>
              var t := AdmissionApply(cfg, s, Admit);
              && AdmissionEnabled(cfg, t, Reserve(h))
              && var u := AdmissionApply(cfg, t, Reserve(h));
                 && u.ws[h].status != Closed && u.ws[k].status != Closed && h != k
                 && SameIncident(u.ws[h], u.ws[k], ByHost)
  {
  }
}
