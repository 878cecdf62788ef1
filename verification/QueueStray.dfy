/**
 Two runs of the whole protocol that give one group a second agent while the first is alive: in one its rule goes
 from grouping by rule to grouping by host, in the other an inspection reports another project.
 */
module QueueStray {
  import opened Options
  import opened QueueTables
  import opened QueueProtocol
  import opened QueueIncidents
  import opened QueueLate

  const SECOND_HANDLE: Handle := 8
  const BY_HOST := Rule(true, ByHost, "owner", "")

  /** Row 1 is due and no workstream matches it, though one is open. */
  ghost predicate Stray(s: State, rule: Rule) {
    && s.lock == Some(0) && s.phase == Ready && s.rules == map[(1, 2) := rule]
    && rule.enabled && rule.owner == "owner" && rule.project == ""
    && s.pending.Keys == {1} && s.pending[1].key == KEY && s.pending[1].payload == TEXT && s.pending[1].availableAt <= s.now
    && s.ws.Keys == {HANDLE} && s.ws[HANDLE].status == Open && HANDLE in s.reserved
    && NoneMatches(s.ws, Criteria(1, 2, "owner", "", rule.grouping, None))
  }

  /** The next delivery of a stray group reserves a second workstream. */
  lemma ReserveSecond(tr: seq<State>, steps: seq<Step>, rule: Rule) returns (tr': seq<State>, steps': seq<Step>)
    requires IsRun(CFG, tr, steps) && Stray(tr[|steps|], rule)
    ensures IsRun(CFG, tr', steps') && |tr'| == |steps'| + 1
    ensures var s, t := tr[|steps|], tr'[|steps'|];
            var b := Batch(KEY, [1], rule, TEXT, |s.committed|);
            t == s.(ws := s.ws[SECOND_HANDLE := NewRow(b, s.now)], reserved := s.reserved + {SECOND_HANDLE},
                    phase := Found(b, SECOND_HANDLE, NewRow(b, s.now)))
  {
    assert |tr| == |steps| + 1;
    hide IsRun, Enabled, Apply;
    var s := tr[|steps|];
    assert IsHead(s.pending, KEY, 20, [1]);
    tr', steps', s := GoTick(tr, steps, ReadRows([1]));
    assert Unclosed(s.ws) == {HANDLE};
    FewOpened(s.ws, s.now - MINUTE);
    tr', steps', s := GoAdmission(tr', steps', Admit);
    tr', steps', s := GoAdmission(tr', steps', Reserve(SECOND_HANDLE));
  }

  lemma FewOpened(ws: Workstreams, t: Time)
    requires ws.Keys == {HANDLE}
    ensures |OpenedAfter(ws, t)| <= 1
  {
    if HANDLE in OpenedAfter(ws, t) {
      assert OpenedAfter(ws, t) == {HANDLE};
    } else {
      assert OpenedAfter(ws, t) == {};
    }
  }

  /** The group's first delivery is put off after its agent was created; then its rule groups by host. */
  lemma Regroup() returns (tr: seq<State>, steps: seq<Step>)
    ensures IsRun(CFG, tr, steps) && |tr| == |steps| + 1
    ensures var s := tr[|steps|];
            Stray(s, BY_HOST) && Lively(s.ws, s.agents) && s.ws[HANDLE].groupSource == Some("host")
  {
    hide IsRun, Enabled, Apply;
    var s;
    tr, steps := CommitSecond();
    tr, steps := OpenAgent(tr, steps);
    tr, steps, s := GoDefer(tr, steps, [1], 30 * SECOND);
    tr, steps, s := GoWorld(tr, steps, Advance(30 * SECOND));
    tr, steps, s := GoWorld(tr, steps, EditRules(map[(1, 2) := BY_HOST]));
  }

  lemma GoDefer(tr: seq<State>, steps: seq<Step>, ids: seq<nat>, until: Time)
    returns (tr': seq<State>, steps': seq<Step>, s: State)
    requires IsRun(CFG, tr, steps) && DeferEnabled(tr[|steps|], ids, until)
    ensures IsRun(CFG, tr', steps') && |tr'| == |steps'| + 1
    ensures tr'[|steps'|] == s == DeferApply(tr[|steps|], ids, until)
  {
    tr', steps', s := Go(tr, steps, Defer(ids, until));
  }

  /** One agent per incident fails when a rule goes from grouping by rule to grouping by host with events pending. */
  lemma RegroupedIncidentHasTwo() returns (tr: seq<State>, steps: seq<Step>, h: Handle, k: Handle)
    ensures IsRun(CFG, tr, steps) && |tr| == |steps| + 1
    ensures var s := tr[|steps|];
            && h != k && h in s.reserved && k in s.reserved && h in s.ws && k in s.ws
            && s.ws[h].status != Closed && s.ws[k].status != Closed && SameIncident(s.ws[h], s.ws[k], ByHost)
  {
    hide IsRun, Enabled, Apply;
    tr, steps := Regroup();
    tr, steps := ReserveSecond(tr, steps, BY_HOST);
    h, k := HANDLE, SECOND_HANDLE;
  }

  /** The inspection of the group's first delivery finds its agent in another project. */
  lemma InspectElsewhere(tr: seq<State>, steps: seq<Step>) returns (tr': seq<State>, steps': seq<Step>)
    requires IsRun(CFG, tr, steps) && Holding(tr[|steps|], 1)
    ensures IsRun(CFG, tr', steps') && |tr'| == |steps'| + 1
    ensures var s, t := tr[|steps|], tr'[|steps'|];
            && t.phase == Confirmed(s.phase.b, HANDLE, s.phase.w, Known(false, true, "elsewhere", None))
            && t == s.(phase := t.phase, ws := t.ws, events := t.events, pending := t.pending, dropped := t.dropped)
            && t.pending == s.pending && t.ws.Keys == {HANDLE}
            && t.ws[HANDLE] == s.ws[HANDLE].(checkedAt := Some(0), project := "elsewhere")
  {
    assert |tr| == |steps| + 1;
    hide IsRun, Enabled, Apply;
    var s;
    tr', steps', s := GoMessage(tr, steps, Inspect(Known(false, true, "elsewhere", None)));
    tr', steps', s := GoMessage(tr', steps', InspectWrite("owner"));
    assert s.pending == tr[|steps|].pending - {};
  }

  /** The delivery is put off. */
  lemma Relocate() returns (tr: seq<State>, steps: seq<Step>)
    ensures IsRun(CFG, tr, steps) && |tr| == |steps| + 1
    ensures var s := tr[|steps|];
            && Stray(s, RULE) && s.ws[HANDLE].rule == 1 && s.ws[HANDLE].target == 2 && s.ws[HANDLE].owner == "owner"
            && s.ws[HANDLE].groupSource == Some("host") && HANDLE in s.agents && s.agents[HANDLE].state == Alive
  {
    hide IsRun, Enabled, Apply;
    var s;
    tr, steps := CommitSecond();
    tr, steps := OpenAgent(tr, steps);
    tr, steps := InspectElsewhere(tr, steps);
    tr, steps, s := GoDefer(tr, steps, [1], 300 * SECOND);
    tr, steps, s := GoWorld(tr, steps, Advance(300 * SECOND));
  }

  /** And it fails when an inspection reports another project than the one asked for: but for that, the two serve
      one incident. */
  lemma RelocatedIncidentHasTwo() returns (tr: seq<State>, steps: seq<Step>, h: Handle, k: Handle)
    ensures IsRun(CFG, tr, steps) && |tr| == |steps| + 1
    ensures var s := tr[|steps|];
            && h != k && h in s.reserved && k in s.reserved && h in s.ws && k in s.ws
            && s.ws[h].status != Closed && s.ws[k].status != Closed && SameIncident(s.ws[h].(project := ""), s.ws[k], ByHost)
  {
    hide IsRun, Enabled, Apply;
    tr, steps := Relocate();
    tr, steps := ReserveSecond(tr, steps, RULE);
    h, k := HANDLE, SECOND_HANDLE;
  }
}
