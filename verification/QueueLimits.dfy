/**
 Admission: the cap on unclosed workstreams, the ceiling on reservations in any minute, and
 one unclosed workstream per incident.
 */
module QueueLimits {
  import opened Options
  import opened Sets
  import opened QueueTables
  import opened QueueProtocol
  import opened QueueSlots

  // ----- counting -----

  ghost predicate RateOk(cfg: Config, ws: Workstreams, reserved: set<Handle>) {
    && reserved <= ws.Keys
    && forall t: Time :: |OpenedInMinute(ws, reserved, t)| <= if cfg.rateCeiling > 0 then cfg.rateCeiling else 0
  }

  ghost predicate CountsOk(cfg: Config, cap: nat, ws: Workstreams, reserved: set<Handle>) {
    |Unclosed(ws)| <= cap && RateOk(cfg, ws, reserved)
  }

  /** What admission has checked, and what stays true until the reservation. */
  ghost predicate Admissible(cfg: Config, ws: Workstreams, now: Time, wanted: Criteria) {
    && NoneMatches(ws, wanted)
    && |Unclosed(ws)| < cfg.maxActive && |OpenedAfter(ws, now - MINUTE)| < cfg.rateCeiling
  }

  ghost predicate LimitsOk(cfg: Config, cap: nat, s: State) {
    && CountsOk(cfg, cap, s.ws, s.reserved)
    && (s.phase.Admitted? ==> Admissible(cfg, s.ws, s.now, s.phase.b.Wanted()))
  }

  /** A write that reopens nothing and moves no opening time keeps the counts in bounds. */
  lemma UpdateKeepsCounts(cfg: Config, cap: nat, ws: Workstreams, reserved: set<Handle>, h: Handle, row: Workstream)
    requires CountsOk(cfg, cap, ws, reserved)
    requires h in ws && ws[h].openedAt == row.openedAt && (ws[h].status == Closed ==> row.status == Closed)
    ensures CountsOk(cfg, cap, ws[h := row], reserved)
  {
    var after := ws[h := row];
    SubsetSize(Unclosed(after), Unclosed(ws));
    forall t: Time
      ensures OpenedInMinute(after, reserved, t) == OpenedInMinute(ws, reserved, t)
    {
    }
  }

  lemma ReservationKeepsRate(cfg: Config, ws: Workstreams, reserved: set<Handle>, now: Time, h: Handle, row: Workstream)
    requires RateOk(cfg, ws, reserved) && h !in ws && row.openedAt == now
    requires |OpenedAfter(ws, now - MINUTE)| < cfg.rateCeiling
    ensures RateOk(cfg, ws[h := row], reserved + {h})
  {
    var ws', reserved' := ws[h := row], reserved + {h};
    forall t: Time
      ensures |OpenedInMinute(ws', reserved', t)| <= cfg.rateCeiling
    {
      var before := OpenedInMinute(ws, reserved, t);
      if t - MINUTE < now <= t {
        assert OpenedInMinute(ws', reserved', t) == before + {h};
        SubsetSize(before, OpenedAfter(ws, now - MINUTE));
      } else {
        assert OpenedInMinute(ws', reserved', t) == before;
      }
    }
  }

  lemma ReservationKeepsCap(ws: Workstreams, h: Handle, row: Workstream)
    requires h !in ws
    ensures |Unclosed(ws[h := row])| <= |Unclosed(ws)| + 1
  {
    SubsetSize(Unclosed(ws[h := row]), Unclosed(ws) + {h});
  }

  /** Time only removes rows from the last minute. */
  lemma LaterCountsLess(ws: Workstreams, t: Time, u: Time)
    requires t <= u
    ensures |OpenedAfter(ws, u)| <= |OpenedAfter(ws, t)|
  {
    SubsetSize(OpenedAfter(ws, u), OpenedAfter(ws, t));
  }

  // ----- every step -----

  lemma LimitsWorld(cfg: Config, cap: nat, s: State, step: WorldStep)
    requires LimitsOk(cfg, cap, s) && WorldEnabled(s, step)
    ensures LimitsOk(cfg, cap, WorldApply(s, step))
  {
    match step {
      case Advance(to) => LaterCountsLess(s.ws, s.now - MINUTE, to - MINUTE);
      case _ =>
    }
  }

  lemma LimitsCollector(cfg: Config, cap: nat, s: State, step: CollectorStep)
    requires LimitsOk(cfg, cap, s) && CollectorEnabled(s, step)
    ensures LimitsOk(cfg, cap, CollectorApply(s, step))
  {
  }

  lemma LimitsTick(cfg: Config, cap: nat, s: State, step: TickStep)
    requires SlotsOk(s) && LimitsOk(cfg, cap, s) && TickEnabled(cfg, s, step)
    ensures LimitsOk(cfg, cap, TickApply(cfg, s, step))
  {
    match step {
      case PollWrite(owner) =>
        UpdateKeepsCounts(cfg, cap, s.ws, s.reserved, s.phase.h, InspectedRow(s.ws[s.phase.h], s.phase.w, s.phase.reply, owner, s.now));
      case PollFail => UpdateKeepsCounts(cfg, cap, s.ws, s.reserved, s.phase.h, s.ws[s.phase.h].(checkedAt := Some(s.now)));
      case _ =>
    }
  }

  lemma LimitsAdmission(cfg: Config, cap: nat, s: State, step: AdmissionStep)
    requires SlotsOk(s) && LimitsOk(cfg, cap, s) && AdmissionEnabled(cfg, s, step) && cfg.maxActive <= cap
    ensures LimitsOk(cfg, cap, AdmissionApply(cfg, s, step))
  {
    match step {
      case Reserve(h) =>
        ReservationKeepsRate(cfg, s.ws, s.reserved, s.now, h, NewRow(s.phase.b, s.now));
        ReservationKeepsCap(s.ws, h, NewRow(s.phase.b, s.now));
      case Attempt =>
        UpdateKeepsCounts(cfg, cap, s.ws, s.reserved, s.phase.h, s.ws[s.phase.h].(attempted := true, status := Uncertain));
      case CreateOk => UpdateKeepsCounts(cfg, cap, s.ws, s.reserved, s.phase.h, s.ws[s.phase.h].(status := Open));
      case CreateRefused =>
        UpdateKeepsCounts(cfg, cap, s.ws, s.reserved, s.phase.h, s.ws[s.phase.h].(attempted := false, status := Opening));
      case _ =>
    }
  }

  lemma LimitsMessage(cfg: Config, cap: nat, s: State, step: MessageStep)
    requires SlotsOk(s) && LimitsOk(cfg, cap, s) && MessageEnabled(cfg, s, step)
    ensures LimitsOk(cfg, cap, MessageApply(cfg, s, step))
  {
    match step {
      case InspectWrite(owner) =>
        UpdateKeepsCounts(cfg, cap, s.ws, s.reserved, s.phase.h, InspectedRow(s.ws[s.phase.h], s.phase.w, s.phase.reply, owner, s.now));
      case Deliver =>
        UpdateKeepsCounts(cfg, cap, s.ws, s.reserved, s.phase.h, s.ws[s.phase.h].(seeded := true, lastSentAt := Some(s.now)));
      case _ =>
    }
  }

  lemma LimitsStep(cfg: Config, cap: nat, s: State, step: Step)
    requires SlotsOk(s) && LimitsOk(cfg, cap, s) && Enabled(cfg, s, step) && cfg.maxActive <= cap
    ensures LimitsOk(cfg, cap, Apply(cfg, s, step))
  {
    match step {
      case World(x) => LimitsWorld(cfg, cap, s, x);
      case Collector(x) => LimitsCollector(cfg, cap, s, x);
      case Tick(x) => LimitsTick(cfg, cap, s, x);
      case Admission(x) => LimitsAdmission(cfg, cap, s, x);
      case Message(x) => LimitsMessage(cfg, cap, s, x);
      case Defer(_, _) =>
    }
  }
}
