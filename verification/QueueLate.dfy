/**
 A run of the whole protocol that delivers a group's rows against their numbers: row 0 is numbered first but
 committed only after row 1 has been delivered.
 */
module QueueLate {
  import opened Options
  import opened QueueTables
  import opened QueueProtocol

  const CFG := Config(2, 120, 0, SECOND, 20)
  const KEY := GroupKey(1, 2, ByRule, None, "owner", "")
  const TEXT := Payload("owner", "", "host", "seed", "")
  const RULE := Rule(true, ByRule, "owner", "")
  const HANDLE: Handle := 7

  lemma Go(tr: seq<State>, steps: seq<Step>, step: Step) returns (tr': seq<State>, steps': seq<Step>, s: State)
    requires IsRun(CFG, tr, steps) && Enabled(CFG, tr[|steps|], step)
    ensures IsRun(CFG, tr', steps') && |tr'| == |steps'| + 1 && tr'[|steps'|] == s == Apply(CFG, tr[|steps|], step)
  {
    ExtendRun(CFG, tr, steps, step);
    s := Apply(CFG, tr[|steps|], step);
    tr', steps' := tr + [s], steps + [step];
  }

  lemma GoWorld(tr: seq<State>, steps: seq<Step>, x: WorldStep) returns (tr': seq<State>, steps': seq<Step>, s: State)
    requires IsRun(CFG, tr, steps) && WorldEnabled(tr[|steps|], x)
    ensures IsRun(CFG, tr', steps') && |tr'| == |steps'| + 1 && tr'[|steps'|] == s == WorldApply(tr[|steps|], x)
  {
    tr', steps', s := Go(tr, steps, World(x));
  }

  lemma GoCollector(tr: seq<State>, steps: seq<Step>, x: CollectorStep) returns (tr': seq<State>, steps': seq<Step>, s: State)
    requires IsRun(CFG, tr, steps) && CollectorEnabled(tr[|steps|], x)
    ensures IsRun(CFG, tr', steps') && |tr'| == |steps'| + 1 && tr'[|steps'|] == s == CollectorApply(tr[|steps|], x)
  {
    tr', steps', s := Go(tr, steps, Collector(x));
  }

  lemma GoTick(tr: seq<State>, steps: seq<Step>, x: TickStep) returns (tr': seq<State>, steps': seq<Step>, s: State)
    requires IsRun(CFG, tr, steps) && TickEnabled(CFG, tr[|steps|], x)
    ensures IsRun(CFG, tr', steps') && |tr'| == |steps'| + 1 && tr'[|steps'|] == s == TickApply(CFG, tr[|steps|], x)
  {
    tr', steps', s := Go(tr, steps, Tick(x));
  }

  lemma GoAdmission(tr: seq<State>, steps: seq<Step>, x: AdmissionStep) returns (tr': seq<State>, steps': seq<Step>, s: State)
    requires IsRun(CFG, tr, steps) && AdmissionEnabled(CFG, tr[|steps|], x)
    ensures IsRun(CFG, tr', steps') && |tr'| == |steps'| + 1 && tr'[|steps'|] == s == AdmissionApply(CFG, tr[|steps|], x)
  {
    tr', steps', s := Go(tr, steps, Admission(x));
  }

  lemma GoMessage(tr: seq<State>, steps: seq<Step>, x: MessageStep) returns (tr': seq<State>, steps': seq<Step>, s: State)
    requires IsRun(CFG, tr, steps) && MessageEnabled(CFG, tr[|steps|], x)
    ensures IsRun(CFG, tr', steps') && |tr'| == |steps'| + 1 && tr'[|steps'|] == s == MessageApply(CFG, tr[|steps|], x)
  {
    tr', steps', s := Go(tr, steps, Message(x));
  }

  /** The state before a delivery of row `id`: the other transaction, if still open, locks nothing. */
  ghost predicate Waiting(s: State, id: nat) {
    && s.now == 0 && s.lock == Some(0) && s.phase == Ready
    && s.pending.Keys == {id} && s.pending[id].key == KEY && s.pending[id].payload == TEXT && s.pending[id].availableAt == 0
    && s.rules == map[(1, 2) := RULE]
    && forall t <- s.txns :: s.txns[t].stage == Inserted(None, t, t) && s.txns[t].key == KEY && s.txns[t].payload == TEXT
                             && s.txns[t].started == 0
  }

  /** The state of a delivery of row `id` whose agent is alive and about to be inspected. */
  ghost predicate Holding(s: State, id: nat) {
    && s.now == 0 && s.lock == Some(0) && s.phase.Claimed? && s.phase.h == HANDLE && s.phase.w.status == Open
    && s.phase.w.owner == "owner" && s.phase.w.lastSentAt in {None, Some(0)} && s.phase.b.key == KEY && s.phase.b.ids == [id] && s.phase.b.head == TEXT
    && s.pending.Keys == {id} && s.pending[id].key == KEY && s.pending[id].payload == TEXT
    && Lively(s.ws, s.agents)
    && s.rules == map[(1, 2) := RULE]
    && forall t <- s.txns :: s.txns[t].stage == Inserted(None, t, t) && s.txns[t].key == KEY && s.txns[t].payload == TEXT
                             && s.txns[t].started == 0
  }

  /** The only workstream serves the group and its agent is alive. */
  ghost predicate Lively(ws: Workstreams, agents: map<Handle, Agent>) {
    && ws.Keys == {HANDLE} && ws[HANDLE].status == Open && ws[HANDLE].rule == 1 && ws[HANDLE].target == 2
    && ws[HANDLE].owner == "owner" && ws[HANDLE].project == "" && ws[HANDLE].lastSentAt in {None, Some(0)}
    && HANDLE in agents && agents[HANDLE].state == Alive
  }

  ghost predicate Empty(s: State) {
    && s.now == 0 && s.lock == None && s.phase == Ready && s.rules == map[(1, 2) := RULE]
    && s.ws == map[] && s.agents == map[] && s.creates == [] && s.log == [] && s.pending == map[]
  }

  lemma Start() returns (s: State)
    ensures IsRun(CFG, [s], []) && Empty(s) && s.txns == map[] && s.nextEvent == 0 && s.nextId == 0
  {
    s := State(0, map[], map[], map[], map[(1, 2) := RULE], 0, 0, map[], None, Ready, map[], [], [], [], [], {}, {});
  }

  /** An enqueue that has its number but is not committed. */
  lemma EnqueueFirst() returns (tr: seq<State>, steps: seq<Step>)
    ensures IsRun(CFG, tr, steps) && |tr| == |steps| + 1
    ensures var s := tr[|steps|];
            Empty(s) && s.txns == map[0 := Txn(0, KEY, TEXT, Inserted(None, 0, 0))] && s.nextEvent == 1 && s.nextId == 1
  {
    hide IsRun, Enabled, Apply;
    var s := Start();
    tr, steps := [s], [];
    tr, steps, s := GoCollector(tr, steps, Begin(0, KEY, TEXT));
    tr, steps, s := GoCollector(tr, steps, LookUp(0, None));
    tr, steps, s := GoCollector(tr, steps, NumberEvent(0));
    tr, steps, s := GoCollector(tr, steps, InsertRow(0));
  }

  /** A second enqueue of the group, up to its number. */
  lemma EnqueueSecond() returns (tr: seq<State>, steps: seq<Step>)
    ensures IsRun(CFG, tr, steps) && |tr| == |steps| + 1
    ensures var s := tr[|steps|];
            && Empty(s) && s.txns.Keys == {0, 1}
            && s.txns[0] == Txn(0, KEY, TEXT, Inserted(None, 0, 0)) && s.txns[1] == Txn(0, KEY, TEXT, Inserted(None, 1, 1))
  {
    hide IsRun, Enabled, Apply;
    var s;
    tr, steps := EnqueueFirst();
    tr, steps, s := GoCollector(tr, steps, Begin(1, KEY, TEXT));
    tr, steps, s := GoCollector(tr, steps, LookUp(1, None));
    tr, steps, s := GoCollector(tr, steps, NumberEvent(1));
    tr, steps, s := GoCollector(tr, steps, InsertRow(1));
  }

  /** Only the second is committed; a scheduler takes the lock. */
  lemma CommitSecond() returns (tr: seq<State>, steps: seq<Step>)
    ensures IsRun(CFG, tr, steps) && |tr| == |steps| + 1
    ensures var s := tr[|steps|];
            && Waiting(s, 1) && s.txns.Keys == {0} && s.ws == map[] && s.agents == map[] && s.creates == [] && s.log == []
  {
    hide IsRun, Enabled, Apply;
    var s;
    tr, steps := EnqueueSecond();
    tr, steps, s := GoCollector(tr, steps, Commit(1));
    tr, steps, s := GoTick(tr, steps, Acquire(0));
  }

  /** A workstream is reserved for the group. */
  lemma ReserveAgent(tr: seq<State>, steps: seq<Step>) returns (tr': seq<State>, steps': seq<Step>)
    requires IsRun(CFG, tr, steps) && Waiting(tr[|steps|], 1)
    requires tr[|steps|].ws == map[] && tr[|steps|].agents == map[] && tr[|steps|].creates == []
    ensures IsRun(CFG, tr', steps') && |tr'| == |steps'| + 1
    ensures var s, t := tr[|steps|], tr'[|steps'|];
            var b := Batch(KEY, [1], RULE, TEXT, |s.committed|);
            t == s.(ws := map[HANDLE := NewRow(b, 0)], phase := Found(b, HANDLE, NewRow(b, 0)), reserved := s.reserved + {HANDLE})
  {
    assert |tr| == |steps| + 1;
    hide IsRun, Enabled, Apply;
    var s := tr[|steps|];
    assert IsHead(s.pending, KEY, 20, [1]);
    tr', steps', s := GoTick(tr, steps, ReadRows([1]));
    assert Unclosed(s.ws) == {} && OpenedAfter(s.ws, s.now - MINUTE) == {};
    tr', steps', s := GoAdmission(tr', steps', Admit);
    tr', steps', s := GoAdmission(tr', steps', Reserve(HANDLE));
    assert tr[|steps|].ws[HANDLE := NewRow(s.phase.b, 0)] == map[HANDLE := NewRow(s.phase.b, 0)];
  }

  /** The creation is issued. */
  lemma AttemptAgent(tr: seq<State>, steps: seq<Step>) returns (tr': seq<State>, steps': seq<Step>)
    requires IsRun(CFG, tr, steps) && Waiting(tr[|steps|], 1)
    requires tr[|steps|].ws == map[] && tr[|steps|].agents == map[] && tr[|steps|].creates == []
    ensures IsRun(CFG, tr', steps') && |tr'| == |steps'| + 1
    ensures var s, t := tr[|steps|], tr'[|steps'|];
            var b := Batch(KEY, [1], RULE, TEXT, |s.committed|);
            var row := NewRow(b, 0);
            && t == s.(ws := map[HANDLE := row.(attempted := true, status := Uncertain)], pending := t.pending,
                       phase := Creating(b, HANDLE, row, 0), reserved := s.reserved + {HANDLE}, creates := [Create(HANDLE, InFlight)])
            && t.pending == AssignTo(s.pending, [1], HANDLE)
  {
    assert |tr| == |steps| + 1;
    hide IsRun, Enabled, Apply;
    var s;
    tr', steps' := ReserveAgent(tr, steps);
    tr', steps', s := GoAdmission(tr', steps', Claim);
    tr', steps', s := GoAdmission(tr', steps', Attempt);
  }

  /** The remote creates the agent. */
  lemma TakeAgent(tr: seq<State>, steps: seq<Step>) returns (tr': seq<State>, steps': seq<Step>)
    requires IsRun(CFG, tr, steps) && Waiting(tr[|steps|], 1)
    requires tr[|steps|].ws == map[] && tr[|steps|].agents == map[] && tr[|steps|].creates == []
    ensures IsRun(CFG, tr', steps') && |tr'| == |steps'| + 1
    ensures var s, t := tr[|steps|], tr'[|steps'|];
            var b := Batch(KEY, [1], RULE, TEXT, |s.committed|);
            var row := NewRow(b, 0);
            && t == s.(ws := map[HANDLE := row.(attempted := true, status := Uncertain)], pending := t.pending,
                       phase := Creating(b, HANDLE, row, 0), reserved := s.reserved + {HANDLE},
                       agents := map[HANDLE := Agent(Alive, Some(0))], creates := [Create(HANDLE, Accepted)])
            && t.pending == AssignTo(s.pending, [1], HANDLE)
  {
    assert |tr| == |steps| + 1;
    hide IsRun, Enabled, Apply;
    var s;
    tr', steps' := AttemptAgent(tr, steps);
    tr', steps', s := GoWorld(tr', steps', RemoteCreates(0));
  }

  /** Its agent is created. */
  lemma OpenAgent(tr: seq<State>, steps: seq<Step>) returns (tr': seq<State>, steps': seq<Step>)
    requires IsRun(CFG, tr, steps) && Waiting(tr[|steps|], 1)
    requires tr[|steps|].ws == map[] && tr[|steps|].agents == map[] && tr[|steps|].creates == []
    ensures IsRun(CFG, tr', steps') && |tr'| == |steps'| + 1 && Holding(tr'[|steps'|], 1)
    ensures tr'[|steps'|].txns == tr[|steps|].txns && tr'[|steps'|].log == tr[|steps|].log
    ensures HANDLE in tr'[|steps'|].reserved && tr'[|steps'|].ws[HANDLE].groupSource == Some("host")
  {
    assert |tr| == |steps| + 1;
    hide IsRun, Enabled, Apply;
    var s;
    tr', steps' := TakeAgent(tr, steps);
    tr', steps', s := GoAdmission(tr', steps', CreateOk);
  }

  /** The inspection finds the agent alive. */
  lemma InspectOne(tr: seq<State>, steps: seq<Step>, id: nat) returns (tr': seq<State>, steps': seq<Step>)
    requires IsRun(CFG, tr, steps) && Holding(tr[|steps|], id)
    ensures IsRun(CFG, tr', steps') && |tr'| == |steps'| + 1
    ensures var s, t := tr[|steps|], tr'[|steps'|];
            && t.phase == Confirmed(s.phase.b, HANDLE, s.phase.w, Known(false, true, "", None))
            && t == s.(phase := t.phase, ws := t.ws, events := t.events, pending := t.pending, dropped := t.dropped)
            && t.pending == s.pending && Lively(t.ws, t.agents)
  {
    assert |tr| == |steps| + 1;
    hide IsRun, Enabled, Apply;
    var s;
    tr', steps', s := GoMessage(tr, steps, Inspect(Known(false, true, "", None)));
    tr', steps', s := GoMessage(tr', steps', InspectWrite("owner"));
    assert s.pending == tr[|steps|].pending - {};
  }

  /** The message is sent and taken. */
  lemma IssueOne(tr: seq<State>, steps: seq<Step>, id: nat) returns (tr': seq<State>, steps': seq<Step>)
    requires IsRun(CFG, tr, steps) && Holding(tr[|steps|], id)
    ensures IsRun(CFG, tr', steps') && |tr'| == |steps'| + 1
    ensures var s, t := tr[|steps|], tr'[|steps'|];
            && t.phase == Sending(s.phase.b, HANDLE, s.phase.w, 1, |s.feeds|)
            && |t.feeds| == |s.feeds| + 1 && t.feeds[|s.feeds|].outcome == Accepted
            && t == s.(phase := t.phase, ws := t.ws, events := t.events, pending := t.pending, dropped := t.dropped, feeds := t.feeds)
            && t.pending == s.pending && Lively(t.ws, t.agents)
  {
    assert |tr| == |steps| + 1;
    hide IsRun, Enabled, Apply;
    tr', steps' := InspectOne(tr, steps, id);
    var s := tr'[|steps'|];
    assert TextsOf(s.pending, [id]) == ["seed"];
    assert ["seed"][..1] == ["seed"] && TotalLength(["seed"]) == 4;
    tr', steps', s := GoMessage(tr', steps', Send(1));
    tr', steps', s := GoWorld(tr', steps', RemoteTakes(|tr[|steps|].feeds|));
  }

  /** The message is inspected for, sent, taken and recorded. */
  lemma SendOne(tr: seq<State>, steps: seq<Step>, id: nat) returns (tr': seq<State>, steps': seq<Step>)
    requires IsRun(CFG, tr, steps) && Holding(tr[|steps|], id)
    ensures IsRun(CFG, tr', steps') && |tr'| == |steps'| + 1
    ensures var t := tr'[|steps'|];
            && t.log == tr[|steps|].log + [Delivered(HANDLE, KEY, [id], tr[|steps|].phase.b.seen, 0, |tr[|steps|].feeds|)]
            && t.txns == tr[|steps|].txns && t.pending == map[] && t.now == 0 && t.lock == Some(0) && t.phase == Ready
            && t.rules == map[(1, 2) := RULE] && Lively(t.ws, t.agents)
  {
    assert |tr| == |steps| + 1;
    hide IsRun, Enabled, Apply;
    tr', steps' := IssueOne(tr, steps, id);
    var s := tr'[|steps'|];
    assert [id][..1] == [id];
    tr', steps', s := GoMessage(tr', steps', Deliver);
    assert s.pending == map[];
  }

  /** What the late row waits for. */
  ghost predicate Idle(s: State) {
    && s.pending == map[] && s.now == 0 && s.lock == Some(0) && s.phase == Ready
    && s.rules == map[(1, 2) := RULE] && Lively(s.ws, s.agents)
    && s.txns.Keys == {0} && s.txns[0] == Txn(0, KEY, TEXT, Inserted(None, 0, 0))
  }

  /** The late row is committed and read. */
  lemma ReadLate(tr: seq<State>, steps: seq<Step>) returns (tr': seq<State>, steps': seq<Step>)
    requires IsRun(CFG, tr, steps) && Idle(tr[|steps|])
    ensures IsRun(CFG, tr', steps') && |tr'| == |steps'| + 1
    ensures var s, t := tr[|steps|], tr'[|steps'|];
            && t.phase == Read(Batch(KEY, [0], RULE, TEXT, |t.committed|))
            && t.pending.Keys == {0} && t.pending[0] == Pending(0, KEY, TEXT, None, 0, 0) && t.txns.Keys == {}
            && t.now == 0 && t.lock == Some(0) && t.rules == s.rules && t.ws == s.ws && t.agents == s.agents && t.log == s.log
  {
    assert |tr| == |steps| + 1;
    hide IsRun, Enabled, Apply;
    var s;
    tr', steps', s := GoCollector(tr, steps, Commit(0));
    assert IsHead(s.pending, KEY, 20, [0]);
    tr', steps', s := GoTick(tr', steps', ReadRows([0]));
  }

  /** Its group's agent is adopted. */
  lemma CommitLate(tr: seq<State>, steps: seq<Step>) returns (tr': seq<State>, steps': seq<Step>)
    requires IsRun(CFG, tr, steps) && Idle(tr[|steps|])
    ensures IsRun(CFG, tr', steps') && |tr'| == |steps'| + 1
    ensures Holding(tr'[|steps'|], 0) && tr'[|steps'|].log == tr[|steps|].log
  {
    assert |tr| == |steps| + 1;
    hide IsRun, Enabled, Apply;
    var s;
    tr', steps' := ReadLate(tr, steps);
    tr', steps', s := GoAdmission(tr', steps', Adopt(HANDLE));
    tr', steps', s := GoAdmission(tr', steps', Claim);
  }

  /** Deliveries of one group need not follow the numbers of its rows: here a later one brings a smaller number,
      of a row that was committed after the earlier one had read its batch. */
  lemma LateRowDeliveredBehind() returns (tr: seq<State>, steps: seq<Step>)
    ensures IsRun(CFG, tr, steps) && |tr| == |steps| + 1
    ensures var log := tr[|steps|].log;
            |log| == 2 && log[0].key == log[1].key && log[0].ids == [1] && log[1].ids == [0]
  {
    hide IsRun, Enabled, Apply, Holding, Lively;
    tr, steps := CommitSecond();
    assert 0 in tr[|steps|].txns && tr[|steps|].txns[0] == Txn(0, KEY, TEXT, Inserted(None, 0, 0));
    tr, steps := OpenAgent(tr, steps);
    tr, steps := SendOne(tr, steps, 1);
    assert Idle(tr[|steps|]);
    tr, steps := CommitLate(tr, steps);
    tr, steps := SendOne(tr, steps, 0);
  }
}
