/**
 The semantic judge's cursors, for one rule: events that become visible in any order, a durable cursor that
 every collector may overwrite, and collectors that read windows, retry them, crash and restart.

 A step is one committed statement, one verdict, one dispatch, or the loss of what a collector had in memory.  An
 event number is drawn before its transaction commits, so events may become visible out of order.
 */
module JudgeCoverage {
  import opened Options
  import opened Sets

  /** The most events one window holds. */
  const LIMIT := 5000

  datatype Verdict = Waiting | Quiet | Fired

  /** A window in progress: the events in (from, to] among the first `visible` ones; `sent` of the rule's
      targets have been served. */
  datatype Window = Window(
    from: nat, to: nat, ids: set<nat>, visible: nat, verdict: Verdict, targets: seq<int>, sent: nat, written: bool)

  datatype Judged = Judged(from: nat, to: nat, ids: set<nat>, visible: nat, fired: bool, targets: seq<int>)

  /** A row of `semantic_evals` left by an earlier version. */
  datatype Trace = Trace(ok: bool, from: nat, to: nat)

  datatype Dispatch = Dispatch(from: nat, to: nat, target: int)

  datatype State = State(
    /** the events in the rule's scope, in the order in which they became visible */
    events: seq<nat>,
    traces: seq<Trace>,
    /** the durable cursor, and what it was created with */
    cursor: Option<nat>, baseline: Option<nat>,
    /** per collector: cursors in memory, baselines chosen but not inserted, windows in progress */
    mem: map<nat, nat>, booting: map<nat, nat>, windows: map<nat, Window>,
    /** what has happened: windows acknowledged, and dispatches */
    judged: seq<Judged>, dispatched: seq<Dispatch>)

  datatype Step =
    | Appear(id: nat)
    | Load(c: nat)
    | Insert(c: nat)
    | Read(c: nat, to: nat, ids: set<nat>)
    | Answer(c: nat, verdict: Verdict, targets: seq<int>)
    | Send(c: nat)
    | Write(c: nat)
    | Acknowledge(c: nat)
    | GiveUp(c: nat)
    | Forget(c: nat)

  function Largest(events: seq<nat>): nat {
    if events == [] then 0
    else if Largest(events[1..]) > events[0] then Largest(events[1..])
    else events[0]
  }

  function LastSuccess(traces: seq<Trace>): Option<Trace> {
    if traces == [] then None
    else if traces[|traces| - 1].ok then Some(traces[|traces| - 1])
    else LastSuccess(traces[..|traces| - 1])
  }

  function SmallestFrom(traces: seq<Trace>): nat
    requires traces != []
  {
    if |traces| == 1 || traces[0].from < SmallestFrom(traces[1..]) then traces[0].from else SmallestFrom(traces[1..])
  }

  /** `_bootstrap_checkpoint`: where a rule without a checkpoint starts. */
  function Baseline(traces: seq<Trace>, events: seq<nat>): nat {
    if traces == [] then Largest(events)
    else if LastSuccess(traces).Some? then LastSuccess(traces).value.to
    else SmallestFrom(traces)
  }

  function Behind(events: seq<nat>, from: nat, to: nat): set<nat> {
    set x | x in events && from < x <= to
  }

  /** SELECT ... WHERE id > from ORDER BY id LIMIT, when that finds anything. */
  predicate IsWindow(events: seq<nat>, from: nat, to: nat, ids: set<nat>) {
    && to in ids && |ids| <= LIMIT
    && ids == Behind(events, from, to)
    && (|ids| < LIMIT ==> forall x <- events :: x <= to)
  }

  predicate Enabled(s: State, step: Step) {
    match step
    case Appear(id) => id !in s.events
    case Load(c) => c !in s.mem && c !in s.booting
    case Insert(c) => c in s.booting
    case Read(c, to, ids) => c in s.mem && c !in s.windows && IsWindow(s.events, s.mem[c], to, ids)
    case Answer(c, verdict, targets) => c in s.windows && s.windows[c].verdict.Waiting? && !verdict.Waiting?
    case Send(c) => c in s.windows && s.windows[c].verdict.Fired? && s.windows[c].sent < |s.windows[c].targets|
    case Write(c) =>
      && c in s.windows && !s.windows[c].written && s.cursor.Some?
      && (s.windows[c].verdict.Quiet? || (s.windows[c].verdict.Fired? && s.windows[c].sent == |s.windows[c].targets|))
    case Acknowledge(c) => c in s.windows && s.windows[c].written
    case GiveUp(c) => c in s.windows
    case Forget(c) => true
  }

  function JudgedBy(w: Window): Judged {
    Judged(w.from, w.to, w.ids, w.visible, w.verdict.Fired?, w.targets)
  }

  function Apply(s: State, step: Step): State
    requires Enabled(s, step)
  {
    match step
    case Appear(id) => s.(events := s.events + [id])
    case Load(c) =>
      if s.cursor.Some? then s.(mem := s.mem[c := s.cursor.value])
      else s.(booting := s.booting[c := Baseline(s.traces, s.events)])
    case Insert(c) =>
      if s.cursor.Some? then s.(booting := s.booting - {c})
      else
        var start := s.booting[c];
        s.(cursor := Some(start), baseline := Some(start), mem := s.mem[c := start], booting := s.booting - {c})
    case Read(c, to, ids) =>
      s.(windows := s.windows[c := Window(s.mem[c], to, ids, |s.events|, Waiting, [], 0, false)])
    case Answer(c, verdict, targets) =>
      s.(windows := s.windows[c := s.windows[c].(verdict := verdict, targets := targets)])
    case Send(c) =>
      var w := s.windows[c];
      s.(windows := s.windows[c := w.(sent := w.sent + 1)],
         dispatched := s.dispatched + [Dispatch(w.from, w.to, w.targets[w.sent])])
    case Write(c) =>
      var w := s.windows[c];
      s.(cursor := Some(w.to), judged := s.judged + [JudgedBy(w)], windows := s.windows[c := w.(written := true)])
    case Acknowledge(c) =>
      s.(mem := s.mem[c := s.windows[c].to], windows := s.windows - {c})
    case GiveUp(c) => s.(windows := s.windows - {c})
    case Forget(c) => s.(mem := s.mem - {c}, booting := s.booting - {c}, windows := s.windows - {c})
  }

  ghost predicate Init(s: State) {
    && (forall i, j | 0 <= i < j < |s.events| :: s.events[i] != s.events[j])
    && s.cursor == None && s.baseline == None && s.mem == map[] && s.booting == map[] && s.windows == map[]
    && s.judged == [] && s.dispatched == []
  }

  ghost predicate IsRun(tr: seq<State>, steps: seq<Step>) {
    && |tr| == |steps| + 1 && Init(tr[0])
    && forall i | 0 <= i < |steps| :: Enabled(tr[i], steps[i]) && tr[i + 1] == Apply(tr[i], steps[i])
  }

  lemma ExtendRun(tr: seq<State>, steps: seq<Step>, step: Step)
    requires IsRun(tr, steps) && Enabled(tr[|steps|], step)
    ensures IsRun(tr + [Apply(tr[|steps|], step)], steps + [step])
  {
  }

  // ----- the invariant -----

  ghost predicate Spanned(judged: seq<Judged>, x: nat) {
    exists j <- judged :: j.from < x <= j.to
  }

  /** Every number after the baseline and up to `v` lies in an acknowledged window. */
  ghost predicate Covered(judged: seq<Judged>, baseline: Option<nat>, v: nat) {
    baseline.Some? && forall x: nat | baseline.value < x <= v :: Spanned(judged, x)
  }

  /** A window holds exactly the events of its span that were visible when it was read, the first ones then. */
  ghost predicate ReadOk(events: seq<nat>, from: nat, to: nat, ids: set<nat>, visible: nat) {
    visible <= |events| && IsWindow(events[..visible], from, to, ids)
  }

  ghost predicate Served(dispatched: seq<Dispatch>, from: nat, to: nat, targets: seq<int>, n: nat) {
    n <= |targets| && forall k | 0 <= k < n :: Dispatch(from, to, targets[k]) in dispatched
  }

  ghost predicate WindowOk(events: seq<nat>, judged: seq<Judged>, dispatched: seq<Dispatch>, w: Window) {
    && ReadOk(events, w.from, w.to, w.ids, w.visible)
    && Served(dispatched, w.from, w.to, w.targets, w.sent)
    && (w.verdict.Waiting? ==> w.sent == 0 && !w.written)
    && (w.written ==> JudgedBy(w) in judged)
  }

  ghost predicate JudgedOk(events: seq<nat>, dispatched: seq<Dispatch>, j: Judged) {
    && ReadOk(events, j.from, j.to, j.ids, j.visible)
    && (j.fired ==> Served(dispatched, j.from, j.to, j.targets, |j.targets|))
  }

  ghost predicate Invariant(s: State) {
    && (s.cursor.Some? <==> s.baseline.Some?)
    && (s.cursor.Some? ==> Covered(s.judged, s.baseline, s.cursor.value))
    && (forall c <- s.mem :: Covered(s.judged, s.baseline, s.mem[c]))
    && (forall c <- s.windows ::
          c in s.mem && s.windows[c].from == s.mem[c] && WindowOk(s.events, s.judged, s.dispatched, s.windows[c]))
    && (forall j <- s.judged :: JudgedOk(s.events, s.dispatched, j))
  }

  lemma CoveredMore(judged: seq<Judged>, baseline: Option<nat>, j: Judged)
    requires Covered(judged, baseline, j.from)
    ensures forall v | Covered(judged, baseline, v) :: Covered(judged + [j], baseline, v)
    ensures Covered(judged + [j], baseline, j.to)
  {
    assert j in judged + [j];
    forall x: nat | Spanned(judged, x) ensures Spanned(judged + [j], x) {
      var k :| k in judged && k.from < x <= k.to;
      assert k in judged + [j];
    }
    forall x: nat | baseline.value < x <= j.to ensures Spanned(judged + [j], x) {
      if x <= j.from {
        assert Spanned(judged, x);
      }
    }
  }

  lemma ReadOkLater(events: seq<nat>, id: nat, from: nat, to: nat, ids: set<nat>, visible: nat)
    requires ReadOk(events, from, to, ids, visible)
    ensures ReadOk(events + [id], from, to, ids, visible)
  {
    assert (events + [id])[..visible] == events[..visible];
  }

  lemma AppearKeeps(s: State, id: nat)
    requires Invariant(s) && Enabled(s, Appear(id))
    ensures Invariant(Apply(s, Appear(id)))
  {
    var t := Apply(s, Appear(id));
    forall c | c in s.windows ensures WindowOk(t.events, t.judged, t.dispatched, t.windows[c]) {
      var w := s.windows[c];
      ReadOkLater(s.events, id, w.from, w.to, w.ids, w.visible);
    }
    forall j | j in s.judged ensures JudgedOk(t.events, t.dispatched, j) {
      ReadOkLater(s.events, id, j.from, j.to, j.ids, j.visible);
    }
  }

  lemma SendKeeps(s: State, c: nat)
    requires Invariant(s) && Enabled(s, Send(c))
    ensures Invariant(Apply(s, Send(c)))
  {
    hide Covered, ReadOk;
    var t := Apply(s, Send(c));
    assert forall d <- s.dispatched :: d in t.dispatched;
    forall o | o in t.windows ensures WindowOk(t.events, t.judged, t.dispatched, t.windows[o]) {
      assert WindowOk(s.events, s.judged, s.dispatched, s.windows[o]);
    }
    forall j | j in s.judged ensures JudgedOk(t.events, t.dispatched, j) {
      assert JudgedOk(s.events, s.dispatched, j);
    }
  }

  lemma WriteKeeps(s: State, c: nat)
    requires Invariant(s) && Enabled(s, Write(c))
    ensures Invariant(Apply(s, Write(c)))
  {
    var t := Apply(s, Write(c));
    var w := s.windows[c];
    assert WindowOk(s.events, s.judged, s.dispatched, w);
    CoveredMore(s.judged, s.baseline, JudgedBy(w));
    forall o | o in t.windows ensures WindowOk(t.events, t.judged, t.dispatched, t.windows[o]) {
      assert WindowOk(s.events, s.judged, s.dispatched, s.windows[o]);
    }
    forall j | j in t.judged ensures JudgedOk(t.events, t.dispatched, j) {
      assert j in s.judged || j == JudgedBy(w);
    }
  }

  lemma AcknowledgeKeeps(s: State, c: nat)
    requires Invariant(s) && Enabled(s, Acknowledge(c))
    ensures Invariant(Apply(s, Acknowledge(c)))
  {
    var w := s.windows[c];
    assert JudgedBy(w) in s.judged;
    forall x: nat | s.baseline.value < x <= w.to ensures Spanned(s.judged, x) {
      if x > w.from {
        assert JudgedBy(w).from < x <= JudgedBy(w).to;
      }
    }
  }

  lemma ReadKeeps(s: State, c: nat, to: nat, ids: set<nat>)
    requires Invariant(s) && Enabled(s, Read(c, to, ids))
    ensures Invariant(Apply(s, Read(c, to, ids)))
  {
    assert s.events[..|s.events|] == s.events;
  }

  lemma InvariantStep(s: State, step: Step)
    requires Invariant(s) && Enabled(s, step)
    ensures Invariant(Apply(s, step))
  {
    match step {
      case Appear(id) => AppearKeeps(s, id);
      case Send(c) => SendKeeps(s, c);
      case Write(c) => WriteKeeps(s, c);
      case Acknowledge(c) => AcknowledgeKeeps(s, c);
      case Read(c, to, ids) => ReadKeeps(s, c, to, ids);
      case Answer(c, verdict, targets) =>
        assert WindowOk(s.events, s.judged, s.dispatched, s.windows[c]);
      case _ =>
    }
  }

  lemma {:induction false} InvariantAlways(tr: seq<State>, steps: seq<Step>, i: nat)
    requires IsRun(tr, steps) && i < |tr|
    ensures Invariant(tr[i])
  {
    if i > 0 {
      InvariantAlways(tr, steps, i - 1);
      InvariantStep(tr[i - 1], steps[i - 1]);
    }
  }

  // ----- what the cursors promise -----

  /** A value that the durable cursor or a collector's cursor holds. */
  ghost predicate IsCursor(s: State, v: nat) {
    s.cursor == Some(v) || exists c <- s.mem :: s.mem[c] == v
  }

  /** The event was in an acknowledged window. */
  ghost predicate IsJudged(judged: seq<Judged>, x: nat) {
    exists j <- judged :: x in j.ids
  }

  /** Some acknowledged window over the event's number was read after the event had become visible. */
  ghost predicate SpannedInTime(events: seq<nat>, judged: seq<Judged>, x: nat) {
    exists j <- judged :: j.from < x <= j.to && j.visible <= |events| && x in events[..j.visible]
  }

  /** Nothing is skipped: whatever a cursor holds, by any interleaving of collectors, failures and restarts, every
      event after the baseline and up to it lies in an acknowledged window, and it was judged if and only if it was
      visible when some acknowledged window over it was read. */
  lemma NothingSkipped(tr: seq<State>, steps: seq<Step>, i: nat, v: nat, x: nat)
    requires IsRun(tr, steps) && i < |tr|
    ensures IsJudged(tr[i].judged, x) <==> SpannedInTime(tr[i].events, tr[i].judged, x)
    ensures IsCursor(tr[i], v) && tr[i].baseline.Some? && tr[i].baseline.value < x <= v ==> Spanned(tr[i].judged, x)
  {
    InvariantAlways(tr, steps, i);
    var s := tr[i];
    if j :| j in s.judged && x in j.ids {
      assert JudgedOk(s.events, s.dispatched, j);
    }
    if j :| j in s.judged && j.from < x <= j.to && j.visible <= |s.events| && x in s.events[..j.visible] {
      assert JudgedOk(s.events, s.dispatched, j);
    }
  }

  /** With events that become visible in the order of their numbers, every one is in an acknowledged window. */
  lemma AllJudged(tr: seq<State>, steps: seq<Step>, i: nat, v: nat, x: nat)
    requires IsRun(tr, steps) && i < |tr| && IsCursor(tr[i], v)
    requires x in tr[i].events && tr[i].baseline.Some? && tr[i].baseline.value < x <= v
    requires forall k, l | 0 <= k < l < |tr[i].events| :: tr[i].events[k] < tr[i].events[l]
    ensures exists j <- tr[i].judged :: x in j.ids
  {
    InvariantAlways(tr, steps, i);
    assert Spanned(tr[i].judged, x);
    var j :| j in tr[i].judged && j.from < x <= j.to;
    assert JudgedOk(tr[i].events, tr[i].dispatched, j);
    assert j.to in tr[i].events[..j.visible];
    var k :| 0 <= k < |tr[i].events| && tr[i].events[k] == x;
    var l :| 0 <= l < j.visible && tr[i].events[l] == j.to;
    assert tr[i].events[..j.visible][k] == x;
  }

  /** A window that fired is acknowledged only after a dispatch to every target the rule was bound to. */
  lemma FiredIsServed(tr: seq<State>, steps: seq<Step>, i: nat, j: Judged, t: int)
    requires IsRun(tr, steps) && i < |tr| && j in tr[i].judged && j.fired && t in j.targets
    ensures Dispatch(j.from, j.to, t) in tr[i].dispatched
  {
    InvariantAlways(tr, steps, i);
    assert JudgedOk(tr[i].events, tr[i].dispatched, j);
    var k :| 0 <= k < |j.targets| && j.targets[k] == t;
  }

  // ----- retries -----

  /** A failed window is retried from the same start; its end is no earlier just when the events now visible in
      its span still fit one window. */
  lemma RetriedEnd(events: seq<nat>, later: seq<nat>, from: nat, to: nat, ids: set<nat>, to': nat, ids': set<nat>)
    requires IsWindow(events, from, to, ids) && IsWindow(later, from, to', ids') && events <= later
    ensures to <= to' <==> |Behind(later, from, to)| <= LIMIT
  {
    var span := Behind(later, from, to);
    assert to in events && to in later;
    if to <= to' {
      SubsetSize(span, ids');
    } else {
      SubsetSize(ids', span);
      assert to in span && to !in ids';
    }
  }

  /** The collector whose step it is. */
  predicate StepOf(step: Step, c: nat) {
    match step
    case Appear(_) => false
    case Load(d) => d == c
    case Insert(d) => d == c
    case Read(d, _, _) => d == c
    case Answer(d, _, _) => d == c
    case Send(d) => d == c
    case Write(d) => d == c
    case Acknowledge(d) => d == c
    case GiveUp(d) => d == c
    case Forget(d) => d == c
  }

  lemma OthersKeepCursor(s: State, step: Step, c: nat)
    requires Enabled(s, step) && !StepOf(step, c)
    ensures var t := Apply(s, step);
            && (c in t.mem <==> c in s.mem) && (c in s.mem ==> t.mem[c] == s.mem[c])
            && s.events <= t.events
  {
  }

  lemma {:induction false} CursorStays(tr: seq<State>, steps: seq<Step>, i: nat, k: nat, c: nat)
    requires IsRun(tr, steps) && i <= k <= |steps| && c in tr[i].mem
    requires forall j | i <= j < k :: !StepOf(steps[j], c)
    ensures c in tr[k].mem && tr[k].mem[c] == tr[i].mem[c] && tr[i].events <= tr[k].events
    decreases k - i
  {
    if i < k {
      CursorStays(tr, steps, i, k - 1, c);
      OthersKeepCursor(tr[k - 1], steps[k - 1], c);
    }
  }

  /** A window that was given up is retried from the same start, whatever others do in between; its end is no earlier
      just when the events now visible in its span still fit one window. */
  lemma GivenUpIsRetried(tr: seq<State>, steps: seq<Step>, i: nat, k: nat, c: nat, to: nat, ids: set<nat>)
    requires IsRun(tr, steps) && i < k < |steps|
    requires steps[i] == GiveUp(c) && steps[k] == Read(c, to, ids)
    requires forall j | i < j < k :: !StepOf(steps[j], c)
    ensures c in tr[i].windows && c in tr[k + 1].windows
    ensures var w := tr[i].windows[c];
            && tr[k + 1].windows[c].from == w.from
            && (w.to <= to <==> |Behind(tr[k].events, w.from, w.to)| <= LIMIT)
  {
    InvariantAlways(tr, steps, i);
    CursorStays(tr, steps, i + 1, k, c);
    var w := tr[i].windows[c];
    assert WindowOk(tr[i].events, tr[i].judged, tr[i].dispatched, w);
    RetriedEnd(tr[i].events[..w.visible], tr[k].events, w.from, w.to, w.ids, to, ids);
  }

  // ----- where a rule without a checkpoint starts -----

  /** Rows of an earlier version, whose cursor advanced whether or not the model answered. */
  ghost predicate Chained(traces: seq<Trace>) {
    && (forall i | 0 <= i < |traces| :: traces[i].from <= traces[i].to)
    && forall i, j | 0 <= i < j < |traces| :: traces[i].to <= traces[j].from
  }

  lemma {:induction false} LastSuccessIs(traces: seq<Trace>) returns (i: int)
    ensures if LastSuccess(traces).None? then i == -1 else 0 <= i < |traces| && traces[i] == LastSuccess(traces).value
    ensures forall j | i < j < |traces| :: 0 <= j && !traces[j].ok
    ensures i >= 0 ==> traces[i].ok
  {
    if traces == [] {
      i := -1;
    } else if traces[|traces| - 1].ok {
      i := |traces| - 1;
    } else {
      i := LastSuccessIs(traces[..|traces| - 1]);
    }
  }

  lemma {:induction false} SmallestFromBounds(traces: seq<Trace>, k: nat)
    requires k < |traces|
    ensures SmallestFrom(traces) <= traces[k].from
  {
    if |traces| > 1 {
      SmallestFromBounds(traces[1..], if k > 0 then k - 1 else 0);
    }
  }

  /** An upgrade starts no later than a failed window that no success came after just when there was no success at
      all or the last one ended no later than that window starts; then the window is judged again. */
  lemma BaselineResumes(traces: seq<Trace>, events: seq<nat>, k: nat)
    requires k < |traces| && forall j | k <= j < |traces| :: !traces[j].ok
    ensures Baseline(traces, events) <= traces[k].from <==>
              LastSuccess(traces).None? || LastSuccess(traces).value.to <= traces[k].from
    ensures Chained(traces) ==> Baseline(traces, events) <= traces[k].from
  {
    var i := LastSuccessIs(traces);
    if i < 0 {
      SmallestFromBounds(traces, k);
    }
  }

  /** The windows of two collectors may overlap; then the start of a failed one can be passed. */
  lemma OverlapStartsLate()
    ensures var traces := [Trace(true, 0, 10), Trace(false, 5, 8)]; Baseline(traces, []) > traces[1].from
  {
    assert [Trace(true, 0, 10), Trace(false, 5, 8)][..1] == [Trace(true, 0, 10)];
  }

  // ----- the limit of the claim -----

  /** Every cursor and every window in progress is at `v` or beyond. */
  ghost predicate Beyond(s: State, v: nat) {
    && s.cursor.Some? && v <= s.cursor.value
    && (forall c <- s.mem :: v <= s.mem[c]) && (forall c <- s.windows :: v <= s.windows[c].from < s.windows[c].to)
  }

  ghost predicate NeverJudged(judged: seq<Judged>, x: nat) {
    forall j <- judged :: x !in j.ids
  }

  lemma BeyondStep(s: State, step: Step, v: nat, x: nat)
    requires Invariant(s) && Enabled(s, step) && Beyond(s, v) && x <= v && NeverJudged(s.judged, x)
    ensures Beyond(Apply(s, step), v) && NeverJudged(Apply(s, step).judged, x)
  {
    if step.Write? {
      var w := s.windows[step.c];
      assert WindowOk(s.events, s.judged, s.dispatched, w);
    }
  }

  /** Once every cursor has passed an event that was not judged, it never will be. */
  lemma {:induction false} PassedForGood(tr: seq<State>, steps: seq<Step>, i: nat, k: nat, v: nat, x: nat)
    requires IsRun(tr, steps) && i <= k < |tr| && Beyond(tr[i], v) && x <= v && NeverJudged(tr[i].judged, x)
    ensures Beyond(tr[k], v) && NeverJudged(tr[k].judged, x)
    decreases k - i
  {
    hide Invariant, Beyond, NeverJudged, Enabled, Apply;
    if i < k {
      PassedForGood(tr, steps, i, k - 1, v, x);
      InvariantAlways(tr, steps, k - 1);
      BeyondStep(tr[k - 1], steps[k - 1], v, x);
    }
  }

  lemma NewRule() returns (tr: seq<State>, steps: seq<Step>)
    ensures IsRun(tr, steps)
    ensures tr[|steps|] == State([], [], Some(0), Some(0), map[7 := 0], map[], map[], [], [])
  {
    var s0 := State([], [], None, None, map[], map[], map[], [], []);
    tr, steps := [s0], [];
    var s1 := Apply(s0, Load(7));
    ExtendRun(tr, steps, Load(7));
    tr, steps := tr + [s1], steps + [Load(7)];
    ExtendRun(tr, steps, Insert(7));
    tr, steps := tr + [Apply(s1, Insert(7))], steps + [Insert(7)];
  }

  /** A collector creates the cursor of a new rule and reads its first window, which holds event number 2. */
  lemma FirstWindow() returns (tr: seq<State>, steps: seq<Step>)
    ensures IsRun(tr, steps)
    ensures tr[|steps|] == State([2], [], Some(0), Some(0), map[7 := 0], map[],
                                 map[7 := Window(0, 2, {2}, 1, Waiting, [], 0, false)], [], [])
  {
    tr, steps := NewRule();
    var s3 := Apply(tr[|steps|], Appear(2));
    ExtendRun(tr, steps, Appear(2));
    tr, steps := tr + [s3], steps + [Appear(2)];
    assert Behind(s3.events, 0, 2) == {2};
    ExtendRun(tr, steps, Read(7, 2, {2}));
    tr, steps := tr + [Apply(s3, Read(7, 2, {2}))], steps + [Read(7, 2, {2})];
  }

  /** A run in which an event is lost, for every cursor has passed it: number 1 becomes visible only
      after the window up to 2 was read. */
  lemma LateEventSkipped() returns (tr: seq<State>, steps: seq<Step>)
    ensures IsRun(tr, steps)
    ensures var s := tr[|steps|];
            s.baseline == Some(0) && 1 in s.events && Beyond(s, 2) && NeverJudged(s.judged, 1)
  {
    tr, steps := FirstWindow();
    var s4 := tr[|steps|];
    var s5 := Apply(s4, Answer(7, Quiet, []));
    ExtendRun(tr, steps, Answer(7, Quiet, []));
    tr, steps := tr + [s5], steps + [Answer(7, Quiet, [])];
    var s6 := Apply(s5, Write(7));
    ExtendRun(tr, steps, Write(7));
    tr, steps := tr + [s6], steps + [Write(7)];
    var s7 := Apply(s6, Acknowledge(7));
    ExtendRun(tr, steps, Acknowledge(7));
    tr, steps := tr + [s7], steps + [Acknowledge(7)];
    ExtendRun(tr, steps, Appear(1));
    tr, steps := tr + [Apply(s7, Appear(1))], steps + [Appear(1)];
  }
}
