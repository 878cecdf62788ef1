/**
 The semantic judge program: a pass over the rules with all its gates, the model call and the checkpoint.
 Everything outside is one arbitrary script: between two statements it lets time pass and other collectors
 move, and it decides what every call comes back with.
 */
module Judge {
  import opened Options
  import opened JudgePacing
  import C = JudgeCoverage

  datatype Rule = Rule(id: int, windowSeconds: nat, spikeLines: nat, targets: seq<int>)

  datatype Settings = Settings(maxPerMin: int, pace: Pace, outageAlert: real, spike: nat)

  /** One wait: time, the moves of others, and what the call comes back with. */
  datatype Turn = Turn(
    elapsed: real, moves: seq<(int, C.Step)>, raises: bool, written: bool,
    reachable: bool, usable: bool, fired: bool, stamp: real)

  /** How the pass goes on after a rule. */
  datatype Next = NextRule | EndPass | Raised

  /** What a rule met on its way to the model: an exception, the first gate that was closed, or no closed gate. */
  datatype Met = Unloaded | Baselined | Unreadable | NothingNew | TooSoon | TooFew | BackingOff | Full | Admitted

  function After(met: Met): Next {
    match met
    case Unloaded => Raised
    case Unreadable => Raised
    case Full => EndPass
    case _ => NextRule
  }

  function Get<V>(m: map<int, V>, k: int): Option<V> {
    if k in m then Some(m[k]) else None
  }

  // ----- the timers -----

  /** The trimmed queue stands for the whole history of calls. */
  ghost predicate LimiterOk(history: seq<real>, calls: seq<real>, clock: real, max: int) {
    && Chronological(history) && (forall t <- history :: t <= clock)
    && Recent(calls, clock) == Recent(history, clock)
    && Limited(history, max)
  }

  lemma LimiterLater(history: seq<real>, calls: seq<real>, clock: real, later: real, max: int)
    requires LimiterOk(history, calls, clock, max) && clock <= later
    ensures LimiterOk(history, calls, later, max)
  {
    RecentAgain(calls, clock, later);
    RecentAgain(history, clock, later);
  }

  lemma LimiterTrimmed(history: seq<real>, calls: seq<real>, clock: real, max: int)
    requires LimiterOk(history, calls, clock, max)
    ensures LimiterOk(history, Recent(calls, clock), clock, max)
    ensures |Recent(calls, clock)| == |Within(history, clock - WINDOW, clock)|
  {
    RecentAgain(calls, clock, clock);
    RecentCounts(history, clock);
  }

  lemma {:induction false} RecentAppends(times: seq<real>, at: real, now: real)
    requires now - at <= WINDOW
    ensures Recent(times + [at], now) == Recent(times, now) + [at]
  {
    if times == [] {
      assert times + [at] == [at];
    } else if now - times[0] > WINDOW {
      assert (times + [at])[1..] == times[1..] + [at];
      RecentAppends(times[1..], at, now);
    }
  }

  lemma LimiterCalls(history: seq<real>, calls: seq<real>, clock: real, max: int, at: real)
    requires LimiterOk(history, calls, clock, max) && clock <= at
    requires max > 0 ==> |Recent(calls, clock)| < max
    ensures LimiterOk(history + [at], calls + [at], at, max)
  {
    CallKeepsLimit(history, max, clock, at);
    LimiterLater(history, calls, clock, at, max);
    forall i | 0 <= i < |history| ensures history[i] <= at {
      assert history[i] in history;
    }
    RecentAppends(history, at, at);
    RecentAppends(calls, at, at);
  }

  /** The failure count and the retry time stand for the attempts of the rule. */
  ghost predicate PaceOk(p: Pace, attempts: seq<Attempt>, failures: nat, retryAfter: Option<real>,
                         last: Option<real>, clock: real)
  {
    && Paced(p, attempts) && failures == Streak(attempts) && (forall a <- attempts :: a.end <= clock)
    && (failures > 0 ==>
          retryAfter.Some? && retryAfter.value >= attempts[|attempts| - 1].end + Delay(p, failures))
    && forall a <- attempts :: a.outcome.Acknowledged? ==> last.Some? && a.pass <= last.value
  }

  /** What the gates have established about the next attempt. */
  ghost predicate MayAttempt(p: Pace, failures: nat, retryAfter: Option<real>, last: Option<real>, pass: real, call: real) {
    && pass <= call
    && (failures > 0 ==> retryAfter.Some? && call >= retryAfter.value)
    && (last.Some? ==> pass - last.value >= p.minInterval)
  }

  lemma AttemptKeepsPace(p: Pace, attempts: seq<Attempt>, failures: nat, retryAfter: Option<real>,
                         last: Option<real>, a: Attempt)
    requires Paced(p, attempts) && failures == Streak(attempts)
    requires failures > 0 ==> retryAfter.Some? && retryAfter.value >= attempts[|attempts| - 1].end + Delay(p, failures)
    requires forall b <- attempts :: b.end <= a.pass && (b.outcome.Acknowledged? ==> last.Some? && b.pass <= last.value)
    requires MayAttempt(p, failures, retryAfter, last, a.pass, a.call) && a.call <= a.end
    ensures Paced(p, attempts + [a])
    ensures Streak(attempts + [a]) == if a.outcome.Failed? then failures + 1 else 0
  {
    var all := attempts + [a];
    assert all[..|attempts|] == attempts;
    forall k | 0 <= k < |attempts| ensures attempts[k].end <= a.pass {
      assert attempts[k] in attempts;
    }
    AttemptKeepsBackoff(p, attempts, a);
    forall j | 0 <= j < |attempts| && attempts[j].outcome.Acknowledged? ensures a.pass >= attempts[j].pass + p.minInterval {
      assert attempts[j] in attempts;
    }
  }

  lemma FailureKeepsPace(p: Pace, attempts: seq<Attempt>, failures: nat, retryAfter: Option<real>,
                         last: Option<real>, clock: real, a: Attempt)
    requires PaceOk(p, attempts, failures, retryAfter, last, clock) && a.outcome.Failed?
    requires MayAttempt(p, failures, retryAfter, last, a.pass, a.call) && clock <= a.end && a.call <= a.end
    requires forall b <- attempts :: b.end <= a.pass
    ensures PaceOk(p, attempts + [a], failures + 1, Some(a.end + Delay(p, failures + 1)), last, a.end)
  {
    AttemptKeepsPace(p, attempts, failures, retryAfter, last, a);
  }

  lemma SuccessKeepsPace(p: Pace, attempts: seq<Attempt>, failures: nat, retryAfter: Option<real>,
                         last: Option<real>, clock: real, a: Attempt)
    requires PaceOk(p, attempts, failures, retryAfter, last, clock) && a.outcome.Unacknowledged?
    requires MayAttempt(p, failures, retryAfter, last, a.pass, a.call) && clock <= a.end && a.call <= a.end
    requires forall b <- attempts :: b.end <= a.pass
    ensures PaceOk(p, attempts + [a], 0, None, last, a.end)
  {
    AttemptKeepsPace(p, attempts, failures, retryAfter, last, a);
  }

  /** The checkpoint turns the latest attempt into an acknowledged one. */
  lemma AcknowledgementKeepsPace(p: Pace, attempts: seq<Attempt>, last: Option<real>, clock: real, a: Attempt)
    requires PaceOk(p, attempts + [a], 0, None, last, clock) && a.outcome.Unacknowledged?
    requires forall b <- attempts :: b.end <= a.pass
    ensures PaceOk(p, attempts + [a.(outcome := Acknowledged)], 0, None, Some(a.pass), clock)
  {
    var was, now := attempts + [a], attempts + [a.(outcome := Acknowledged)];
    assert was[|attempts|] == a;
    forall k | 0 <= k < |attempts| ensures attempts[k].pass <= a.pass && attempts[k].end <= clock {
      assert was[k] == attempts[k] && attempts[k] in attempts && was[k] in was;
    }
    AcknowledgementKeepsBackoff(p, attempts, a);
    AcknowledgementKeepsOrder(p, attempts, a);
  }

  lemma AcknowledgementKeepsOrder(p: Pace, attempts: seq<Attempt>, a: Attempt)
    requires InOrder(attempts + [a]) && Floored(p, attempts + [a])
    ensures InOrder(attempts + [a.(outcome := Acknowledged)]) && Floored(p, attempts + [a.(outcome := Acknowledged)])
  {
    var was, now := attempts + [a], attempts + [a.(outcome := Acknowledged)];
    assert forall k | 0 <= k < |now| ::
        now[k].pass == was[k].pass && now[k].call == was[k].call && now[k].end == was[k].end;
    assert forall k | 0 <= k < |attempts| :: now[k] == was[k];
  }

  lemma AcknowledgementKeepsBackoff(p: Pace, attempts: seq<Attempt>, a: Attempt)
    requires BackedOff(p, attempts + [a])
    ensures BackedOff(p, attempts + [a.(outcome := Acknowledged)])
  {
    var was, now := attempts + [a], attempts + [a.(outcome := Acknowledged)];
    forall k | 0 < k < |now| ensures Waited(p, now, k) {
      assert Waited(p, was, k) && was[..k] == now[..k] && was[k - 1] == now[k - 1];
    }
  }

  lemma FailureCounts(attempts: seq<Attempt>)
    requires attempts != [] && attempts[|attempts| - 1].outcome.Failed?
    ensures Streak(attempts) > 0
  {
  }

  lemma AttemptKeepsBackoff(p: Pace, attempts: seq<Attempt>, a: Attempt)
    requires BackedOff(p, attempts)
    requires Streak(attempts) > 0 ==> a.call >= attempts[|attempts| - 1].end + Delay(p, Streak(attempts))
    ensures BackedOff(p, attempts + [a])
  {
    hide Delay, Streak;
    var all := attempts + [a];
    if attempts != [] && attempts[|attempts| - 1].outcome.Failed? {
      FailureCounts(attempts);
    }
    forall k | 0 < k < |all| ensures Waited(p, all, k) {
      if k < |attempts| {
        assert Waited(p, attempts, k) && all[..k] == attempts[..k];
      } else {
        assert all[..k] == attempts;
      }
    }
  }

  lemma HealthStep(interval: real, reaches: seq<Reach>, r: Reach, h: Health, notices: seq<Notice>)
    requires TrackAll(interval, reaches) == (h, notices)
    ensures TrackAll(interval, reaches + [r]) == (Track(interval, h, r).0, notices + Track(interval, h, r).1)
    ensures notices + Track(interval, h, r).1 == notices + DueNotices(interval, notices, r)
  {
    hide Track, DueNotices, Remembers;
    assert (reaches + [r])[..|reaches|] == reaches;
    FieldsSuffice(interval, reaches);
    TrackRemembers(interval, h, notices, r);
  }

  // ----- the cursors -----

  ghost predicate Reachable(s: C.State) {
    exists tr, steps :: C.IsRun(tr, steps) && tr[|steps|] == s
  }

  lemma ReachStep(s: C.State, step: C.Step)
    requires Reachable(s) && C.Enabled(s, step)
    ensures Reachable(C.Apply(s, step))
  {
    var tr, steps :| C.IsRun(tr, steps) && tr[|steps|] == s;
    C.ExtendRun(tr, steps, step);
    assert C.IsRun(tr + [C.Apply(s, step)], steps + [step]);
  }

  /** Whose step it is; events are nobody's. */
  predicate Foreign(me: nat, step: C.Step) {
    match step
    case Appear(_) => true
    case Load(c) => c != me
    case Insert(c) => c != me
    case Read(c, _, _) => c != me
    case Answer(c, _, _) => c != me
    case Send(c) => c != me
    case Write(c) => c != me
    case Acknowledge(c) => c != me
    case GiveUp(c) => c != me
    case Forget(c) => c != me
  }

  function Mine<V>(m: map<nat, V>, me: nat): Option<V> {
    if me in m then Some(m[me]) else None
  }

  /** The moves of others leave a collector's own cursor, baseline and window alone. */
  ghost predicate Undisturbed(s: C.State, t: C.State, me: nat) {
    && Mine(t.mem, me) == Mine(s.mem, me) && Mine(t.booting, me) == Mine(s.booting, me)
    && Mine(t.windows, me) == Mine(s.windows, me)
    && s.events <= t.events && (s.cursor.Some? ==> t.cursor.Some?)
  }

  lemma ForeignStep(s: C.State, step: C.Step, me: nat)
    requires C.Enabled(s, step) && Foreign(me, step)
    ensures Undisturbed(s, C.Apply(s, step), me)
  {
  }

  /** Between two rules, a collector has its cursor and nothing else. */
  ghost predicate Resting(s: C.State, me: nat, cursor: Option<nat>) {
    Mine(s.mem, me) == cursor && me !in s.booting && me !in s.windows
  }

  lemma LoadEffect(s: C.State, me: nat)
    requires me !in s.mem && me !in s.booting
    ensures C.Enabled(s, C.Load(me))
    ensures var t := C.Apply(s, C.Load(me));
            && Mine(t.mem, me) == s.cursor && (me in t.booting <==> s.cursor.None?)
            && (me in t.windows <==> me in s.windows) && t.cursor == s.cursor
  {
  }

  lemma InsertEffect(s: C.State, me: nat)
    requires me !in s.mem && me in s.booting
    ensures C.Enabled(s, C.Insert(me))
    ensures var t := C.Apply(s, C.Insert(me));
            && t.cursor.Some? && me !in t.booting && (me in t.mem <==> s.cursor.None?)
            && (me in t.windows <==> me in s.windows) && t.traces == s.traces
            && (s.cursor.None? ==> t.cursor == t.baseline == Some(t.mem[me]))
  {
  }

  lemma ForgetEffect(s: C.State, me: nat)
    ensures C.Enabled(s, C.Forget(me))
    ensures var t := C.Apply(s, C.Forget(me)); me !in t.mem && me !in t.booting && me !in t.windows
  {
  }

  /** The window has a usable verdict and every target has been served. */
  predicate Acceptable(w: C.Window) {
    !w.written && (w.verdict.Quiet? || (w.verdict.Fired? && w.sent == |w.targets|))
  }

  /** The window is the latest one acknowledged. */
  predicate LastIs(judged: seq<C.Judged>, w: C.Window) {
    judged != [] && judged[|judged| - 1] == C.JudgedBy(w)
  }

  /** The latest acknowledged window was judged with this verdict, for these targets. */
  predicate JudgedAs(judged: seq<C.Judged>, fired: bool, targets: seq<int>, to: nat) {
    judged != [] && var j := judged[|judged| - 1]; j.fired == fired && j.targets == targets && j.to == to
  }

  predicate Unanswered(w: C.Window) {
    w.verdict.Waiting? && w.sent == 0 && !w.written
  }

  lemma ReadEffect(s: C.State, me: nat, to: nat, ids: set<nat>)
    requires me in s.mem && me !in s.windows && C.IsWindow(s.events, s.mem[me], to, ids)
    ensures C.Enabled(s, C.Read(me, to, ids))
    ensures var t := C.Apply(s, C.Read(me, to, ids));
            && t.mem == s.mem && t.booting == s.booting && t.cursor == s.cursor
            && me in t.windows && Unanswered(t.windows[me]) && t.windows[me].to == to
  {
  }

  lemma AnswerEffect(s: C.State, me: nat, verdict: C.Verdict, targets: seq<int>)
    requires me in s.windows && Unanswered(s.windows[me]) && !verdict.Waiting?
    ensures C.Enabled(s, C.Answer(me, verdict, targets))
    ensures var t := C.Apply(s, C.Answer(me, verdict, targets));
            && t.mem == s.mem && t.booting == s.booting && t.cursor == s.cursor
            && me in t.windows && t.windows[me] == s.windows[me].(verdict := verdict, targets := targets)
  {
  }

  /** A collector that has a cursor knows that the durable one exists. */
  lemma CursorKnown(s: C.State, me: nat)
    requires Reachable(s) && me in s.mem
    ensures s.cursor.Some?
  {
    var tr, steps :| C.IsRun(tr, steps) && tr[|steps|] == s;
    C.InvariantAlways(tr, steps, |steps|);
  }

  /** A fired window of which the first `n` targets have been served. */
  predicate Sent(w: C.Window, targets: seq<int>, n: nat) {
    !w.written && w.verdict.Fired? && w.targets == targets && w.sent == n
  }

  lemma SendEffect(s: C.State, me: nat, targets: seq<int>, n: nat)
    requires me in s.windows && Sent(s.windows[me], targets, n) && n < |targets|
    ensures C.Enabled(s, C.Send(me))
    ensures var t := C.Apply(s, C.Send(me));
            && Mine(t.mem, me) == Mine(s.mem, me) && Mine(t.booting, me) == Mine(s.booting, me) && t.cursor == s.cursor
            && me in t.windows && Sent(t.windows[me], targets, n + 1) && t.windows[me].to == s.windows[me].to
  {
  }

  lemma WriteEffect(s: C.State, me: nat)
    requires me in s.windows && Acceptable(s.windows[me]) && s.cursor.Some?
    ensures C.Enabled(s, C.Write(me))
    ensures var t := C.Apply(s, C.Write(me));
            && Mine(t.mem, me) == Mine(s.mem, me) && Mine(t.booting, me) == Mine(s.booting, me) && t.cursor.Some?
            && me in t.windows && t.windows[me] == s.windows[me].(written := true)
            && t.judged == s.judged + [C.JudgedBy(s.windows[me])]
  {
  }

  lemma AcknowledgeEffect(s: C.State, me: nat)
    requires me in s.windows && s.windows[me].written && me !in s.booting
    ensures C.Enabled(s, C.Acknowledge(me))
    ensures Resting(C.Apply(s, C.Acknowledge(me)), me, Some(s.windows[me].to))
    ensures C.Apply(s, C.Acknowledge(me)).judged == s.judged
  {
  }

  lemma GiveUpEffect(s: C.State, me: nat)
    requires me in s.windows && me !in s.booting
    ensures C.Enabled(s, C.GiveUp(me))
    ensures Resting(C.Apply(s, C.GiveUp(me)), me, Mine(s.mem, me))
  {
  }

  ghost predicate AllReachable(db: map<int, C.State>) {
    forall id <- db :: Reachable(db[id])
  }

  ghost predicate AllUndisturbed(db: map<int, C.State>, db': map<int, C.State>, me: nat) {
    db'.Keys == db.Keys && forall id <- db :: Undisturbed(db[id], db'[id], me)
  }

  /** The first window beyond `from`: the smallest numbers, at most LIMIT of them. */
  method SelectWindow(events: seq<nat>, from: nat) returns (to: nat, ids: set<nat>)
    requires exists x <- events :: x > from
    ensures C.IsWindow(events, from, to, ids)
  {
    to, ids := from, {};
    assert C.Behind(events, from, from) == {};
    while |ids| < C.LIMIT
      invariant from <= to && |ids| <= C.LIMIT && ids == C.Behind(events, from, to)
      invariant ids == {} ==> to == from
      invariant ids != {} ==> to in ids
      decreases C.LIMIT - |ids|
    {
      var next := NextAfter(events, to);
      if next.None? {
        break;
      }
      assert C.Behind(events, from, next.value) == ids + {next.value};
      to, ids := next.value, ids + {next.value};
    }
  }

  method NextAfter(events: seq<nat>, v: nat) returns (next: Option<nat>)
    ensures next.None? ==> forall x <- events :: x <= v
    ensures next.Some? ==> next.value in events && next.value > v && forall x <- events :: x > v ==> x >= next.value
  {
    next := None;
    for i := 0 to |events|
      invariant next.None? ==> forall x <- events[..i] :: x <= v
      invariant next.Some? ==>
                  next.value in events && next.value > v && forall x <- events[..i] :: x > v ==> x >= next.value
    {
      assert events[..i + 1] == events[..i] + [events[i]];
      if events[i] > v && (next.None? || events[i] < next.value) {
        next := Some(events[i]);
      }
    }
    assert events[..|events|] == events;
  }

  /** SELECT count(*) ... WHERE id > from. */
  function CountAfter(events: seq<nat>, from: nat): (n: nat)
    ensures n > 0 <==> exists x <- events :: x > from
  {
    var newer := set x | x in events && x > from;
    assert newer != {} ==> exists x :: x in newer;
    assert forall x <- events :: x > from ==> x in newer;
    |newer|
  }

  class SemanticJudge {
    /** This collector, its settings, and what the world does to it. */
    const me: nat
    const cfg: Settings
    const script: nat -> Turn
    var turn: nat
    var clock: real
    /** The tables, one view for each rule. */
    var db: map<int, C.State>
    /** Per rule: the pass that last acknowledged a window, and the cursor. */
    var last: map<int, real>
    var seen: map<int, nat>
    var calls: seq<real>
    var downSince: Option<real>
    var outageNotified: bool
    var lastOutageAlert: Option<real>
    var retryFailures: map<int, nat>
    var retryAfter: map<int, real>
    /** The notices sent. */
    var notices: seq<Notice>
    /** All calls, all answers on reachability, and each rule's verdicts. */
    ghost var history: seq<real>
    ghost var reaches: seq<Reach>
    ghost var attempts: map<int, seq<Attempt>>

    function Failures(id: int): nat
      reads `retryFailures
    {
      if id in retryFailures then retryFailures[id] else 0
    }

    ghost function Attempts(id: int): seq<Attempt>
      reads `attempts
    {
      if id in attempts then attempts[id] else []
    }

    ghost predicate RuleOk(id: int)
      reads `attempts, `retryFailures, `retryAfter, `last, `clock
    {
      PaceOk(cfg.pace, Attempts(id), Failures(id), Get(retryAfter, id), Get(last, id), clock)
    }

    ghost predicate RulesOk()
      reads `attempts, `retryFailures, `retryAfter, `last, `clock
    {
      forall id: int :: RuleOk(id)
    }

    ghost predicate HealthOk()
      reads `downSince, `outageNotified, `lastOutageAlert, `notices, `reaches
    {
      TrackAll(cfg.outageAlert, reaches) == (Health(downSince, outageNotified, lastOutageAlert), notices)
    }

    ghost predicate TimersOk()
      reads `history, `calls, `clock, `attempts, `retryFailures, `retryAfter, `last,
            `downSince, `outageNotified, `lastOutageAlert, `notices, `reaches
    {
      LimiterOk(history, calls, clock, cfg.maxPerMin) && HealthOk() && RulesOk()
    }

    /** All rules but one, if any, are between evaluations. */
    ghost predicate CursorsOk(busy: Option<int>)
      reads `db, `seen, `last
    {
      && AllReachable(db) && seen.Keys == last.Keys && seen.Keys <= db.Keys
      && forall id <- db :: Some(id) != busy ==> Resting(db[id], me, Get(seen, id))
    }

    ghost predicate Valid()
      reads this
    {
      TimersOk() && CursorsOk(None)
    }

    /** The rule's window is in progress. */
    ghost predicate Working(id: int)
      reads this
    {
      && TimersOk() && CursorsOk(Some(id)) && id in db && id in seen
      && me in db[id].windows && Mine(db[id].mem, me) == Some(seen[id]) && me !in db[id].booting
      && db[id].cursor.Some?
    }

    /** A rule whose cursor was not in memory has no acknowledged attempt that the loaded time could contradict. */
    lemma RuleRemembered(id: int, stamp: real)
      requires PaceOk(cfg.pace, Attempts(id), Failures(id), Get(retryAfter, id), None, clock)
      ensures PaceOk(cfg.pace, Attempts(id), Failures(id), Get(retryAfter, id), Some(stamp), clock)
    {
    }

    lemma RuleAcknowledged(id: int, before: seq<Attempt>, a: Attempt)
      requires PaceOk(cfg.pace, before + [a], 0, None, Get(last, id), clock) && a.outcome.Unacknowledged?
      requires forall b <- before :: b.end <= a.pass
      ensures PaceOk(cfg.pace, before + [a.(outcome := Acknowledged)], 0, None, Some(a.pass), clock)
    {
      AcknowledgementKeepsPace(cfg.pace, before, Get(last, id), clock, a);
    }

    /** A collector starts, or restarts, with nothing in memory. */
    constructor (me: nat, cfg: Settings, script: nat -> Turn, clock: real, db: map<int, C.State>)
      requires AllReachable(db) && forall id <- db :: Resting(db[id], me, None)
      ensures Valid() && this.me == me && this.cfg == cfg && this.db == db && history == []
    {
      this.me, this.cfg, this.script, this.clock, this.db := me, cfg, script, clock, db;
      turn, last, seen, calls, notices := 0, map[], map[], [], [];
      downSince, outageNotified, lastOutageAlert, retryFailures, retryAfter := None, false, None, map[], map[];
      history, reaches, attempts := [], [], map[];
    }

    lemma TimePasses(later: real)
      requires TimersOk() && clock <= later
      ensures LimiterOk(history, calls, later, cfg.maxPerMin)
      ensures forall id: int ::
                PaceOk(cfg.pace, Attempts(id), Failures(id), Get(retryAfter, id), Get(last, id), later)
    {
      LimiterLater(history, calls, clock, later, cfg.maxPerMin);
      forall id: int
        ensures PaceOk(cfg.pace, Attempts(id), Failures(id), Get(retryAfter, id), Get(last, id), later)
      {
        assert RuleOk(id);
      }
    }

    /** Some statement or call raised between these turns. */
    ghost predicate Interrupted(from: nat, until: nat) {
      exists n: nat :: from <= n < until && script(n).raises
    }

    /** A reading of the clock. */
    method Reading() returns (t: Turn)
      requires TimersOk()
      modifies `turn, `clock
      ensures TimersOk() && clock >= old(clock) && t == script(old(turn)) && turn == old(turn) + 1
    {
      hide PaceOk;
      t := script(turn);
      TimePasses(if t.elapsed > 0.0 then clock + t.elapsed else clock);
      turn := turn + 1;
      clock := if t.elapsed > 0.0 then clock + t.elapsed else clock;
      forall id: int ensures RuleOk(id) {
      }
    }

    /** A statement or a call: time passes and others move. */
    method Await(ghost busy: Option<int>) returns (t: Turn)
      requires TimersOk() && CursorsOk(busy)
      modifies `turn, `clock, `db
      ensures TimersOk() && clock >= old(clock) && CursorsOk(busy) && AllUndisturbed(old(db), db, me)
      ensures t == script(old(turn)) && turn == old(turn) + 1
    {
      hide PaceOk, TrackAll, LimiterOk;
      t := Reading();
      var i := 0;
      while i < |t.moves|
        invariant i <= |t.moves| && AllReachable(db) && AllUndisturbed(old(db), db, me)
        modifies `db
      {
        var (id, step) := t.moves[i];
        if id in db && Foreign(me, step) && C.Enabled(db[id], step) {
          ForeignStep(db[id], step, me);
          Execute(id, step);
        }
        i := i + 1;
      }
      forall id | id in db && Some(id) != busy ensures Resting(db[id], me, Get(seen, id)) {
        assert Undisturbed(old(db)[id], db[id], me);
      }
    }

    /** One committed statement of this collector, or one thing it learns. */
    method Execute(id: int, step: C.Step)
      requires AllReachable(db) && id in db && C.Enabled(db[id], step)
      modifies `db
      ensures db == old(db)[id := C.Apply(old(db)[id], step)] && AllReachable(db)
    {
      ReachStep(db[id], step);
      db := db[id := C.Apply(db[id], step)];
    }

    // ----- the rolling-minute ceiling -----

    /** `_rate_ok`: trim the queue and compare its length with the ceiling. */
    method RateOk() returns (ok: bool)
      requires TimersOk()
      modifies `turn, `clock, `calls
      ensures TimersOk() && clock >= old(clock) && turn >= old(turn)
      ensures cfg.maxPerMin <= 0 ==> ok && calls == old(calls)
      ensures cfg.maxPerMin > 0 ==>
                && |calls| == |Within(history, clock - WINDOW, clock)|
                && (ok <==> |calls| < cfg.maxPerMin) && Recent(calls, clock) == calls
    {
      if cfg.maxPerMin <= 0 {
        return true;
      }
      hide PaceOk, TrackAll;
      var t := Reading();
      LimiterTrimmed(history, calls, clock, cfg.maxPerMin);
      ghost var before := calls;
      while calls != [] && clock - calls[0] > WINDOW
        invariant Recent(calls, clock) == Recent(before, clock)
        modifies `calls
      {
        calls := calls[1..];
      }
      ok := |calls| < cfg.maxPerMin;
    }

    /** `_note_call`. */
    method NoteCall()
      requires TimersOk() && (cfg.maxPerMin > 0 ==> |Recent(calls, clock)| < cfg.maxPerMin)
      modifies `turn, `clock, `calls, `history
      ensures TimersOk() && clock >= old(clock) && turn == old(turn) + 1
      ensures calls == old(calls) + [clock] && history == old(history) + [clock]
    {
      hide RulesOk, HealthOk, Limited, Chronological;
      ghost var before := clock;
      var t := Reading();
      RecentAgain(calls, before, clock);
      RecentIsTail(Recent(calls, before), clock);
      LimiterCalls(history, calls, clock, cfg.maxPerMin, clock);
      calls := calls + [clock];
      history := history + [clock];
    }

    // ----- outage notices -----

    /** `_track_llm_health`. */
    method TrackLlmHealth(ok: bool)
      requires TimersOk()
      modifies `turn, `clock, `downSince, `outageNotified, `lastOutageAlert, `notices, `reaches
      ensures TimersOk() && clock >= old(clock) && turn == old(turn) + 1
      ensures reaches == old(reaches) + [Reach(ok, clock)]
      ensures notices == old(notices) + DueNotices(cfg.outageAlert, old(notices), Reach(ok, clock))
    {
      hide LimiterOk, RulesOk, DueNotices, Track;
      var t := Reading();
      HealthStep(cfg.outageAlert, reaches, Reach(ok, clock), Health(downSince, outageNotified, lastOutageAlert), notices);
      reaches := reaches + [Reach(ok, clock)];
      UpdateHealth(ok, clock);
    }

    method UpdateHealth(ok: bool, now: real)
      modifies `downSince, `outageNotified, `lastOutageAlert, `notices
      ensures var (h, more) := Track(cfg.outageAlert, old(Health(downSince, outageNotified, lastOutageAlert)), Reach(ok, now));
              Health(downSince, outageNotified, lastOutageAlert) == h && notices == old(notices) + more
    {
      if cfg.outageAlert <= 0.0 {
        return;
      }
      if ok {
        if outageNotified {
          notices := notices + [Recovery(now)];
        }
        downSince := None;
        outageNotified := false;
        return;
      }
      if downSince.None? {
        downSince := Some(now);
      }
      if lastOutageAlert.None? || now - lastOutageAlert.value >= cfg.outageAlert {
        notices := notices + [Outage(now)];
        lastOutageAlert := Some(now);
        outageNotified := true;
      }
    }

    // ----- backoff -----

    /** The gates let the rule's model be called, in the pass that started at `pass`. */
    ghost predicate Due(id: int, pass: real, call: real)
      reads `attempts, `retryFailures, `retryAfter, `last
    {
      && MayAttempt(cfg.pace, Failures(id), Get(retryAfter, id), Get(last, id), pass, call)
      && forall a <- Attempts(id) :: a.end <= pass
    }

    ghost predicate OthersKept(id: int, before: map<int, seq<Attempt>>)
      reads `attempts
    {
      forall o: int | o != id :: Get(attempts, o) == Get(before, o)
    }

    /** `_retry_ready`. */
    method RetryReady(id: int) returns (ok: bool)
      requires TimersOk()
      modifies `turn, `clock
      ensures TimersOk() && clock >= old(clock) && turn >= old(turn)
      ensures ok <==> id !in retryAfter || clock >= retryAfter[id]
    {
      var t := Reading();
      ok := id !in retryAfter || clock >= retryAfter[id];
    }

    /** `_note_failure`: count it and put the next attempt off. */
    method NoteFailure(id: int, ghost pass: real, ghost call: real) returns (ghost a: Attempt)
      requires TimersOk() && Due(id, pass, call) && call <= clock
      modifies `turn, `clock, `retryFailures, `retryAfter, `attempts
      ensures TimersOk() && clock >= old(clock) && OthersKept(id, old(attempts))
      ensures Failures(id) == old(Failures(id)) + 1 && id in retryAfter && turn >= old(turn)
      ensures retryAfter[id] == clock + Delay(cfg.pace, Failures(id))
      ensures a == Attempt(pass, call, clock, Failed) && Attempts(id) == old(Attempts(id)) + [a]
      ensures Failures(id) == Streak(Attempts(id))
    {
      hide PaceOk, LimiterOk, HealthOk, Delay;
      var failures := Failures(id) + 1;
      var t := Reading();
      assert RuleOk(id);
      a := Attempt(pass, call, clock, Failed);
      FailureKeepsPace(cfg.pace, Attempts(id), Failures(id), Get(retryAfter, id), Get(last, id), clock, a);
      label Before:
      retryFailures := retryFailures[id := failures];
      retryAfter := retryAfter[id := clock + Delay(cfg.pace, failures)];
      attempts := attempts[id := Attempts(id) + [a]];
      forall o: int ensures RuleOk(o) {
        assert old@Before(RuleOk(o));
      }
    }

    /** `_clear_failure`. */
    method ClearFailure(id: int, ghost pass: real, ghost call: real)
      requires TimersOk() && Due(id, pass, call) && call <= clock
      modifies `retryFailures, `retryAfter, `attempts
      ensures TimersOk() && OthersKept(id, old(attempts))
      ensures Attempts(id) == old(Attempts(id)) + [Attempt(pass, call, clock, Unacknowledged)]
      ensures Failures(id) == 0 && id !in retryAfter
    {
      hide PaceOk;
      assert RuleOk(id);
      ghost var a := Attempt(pass, call, clock, Unacknowledged);
      SuccessKeepsPace(cfg.pace, Attempts(id), Failures(id), Get(retryAfter, id), Get(last, id), clock, a);
      retryFailures := retryFailures - {id};
      retryAfter := retryAfter - {id};
      attempts := attempts[id := Attempts(id) + [a]];
      forall o: int ensures RuleOk(o) {
        assert old(RuleOk(o));
      }
    }

    // ----- the checkpoint -----

    /** Take over a cursor that was read, with the time of its last evaluation. */
    method Remember(id: int, stamp: real)
      requires TimersOk() && CursorsOk(Some(id)) && id in db && id !in seen
      requires me in db[id].mem && me !in db[id].booting && me !in db[id].windows
      modifies `seen, `last
      ensures Valid() && seen == old(seen)[id := db[id].mem[me]] && last == old(last)[id := stamp]
    {
      hide PaceOk, TrackAll, LimiterOk, Reachable;
      label Before:
      assert RuleOk(id);
      RuleRemembered(id, stamp);
      seen := seen[id := db[id].mem[me]];
      last := last[id := stamp];
      forall o: int ensures RuleOk(o) {
        assert old@Before(RuleOk(o));
      }
    }

    /** `_ensure_rule_state`: load the durable cursor, or create it; None when a statement raises, and true
        only for the baseline of a rule never evaluated before. */
    method EnsureRuleState(id: int) returns (created: Option<bool>)
      requires Valid() && id in db
      modifies `turn, `clock, `db, `seen, `last
      ensures Valid() && clock >= old(clock) && db.Keys == old(db).Keys && turn >= old(turn)
      ensures id in old(seen) ==> created == Some(false) && seen == old(seen) && last == old(last)
      ensures id !in old(seen) ==> StateRead(id, created, old(seen), old(turn))
    {
      hide TimersOk, AllReachable, C.Apply, C.Enabled;
      if id in last {
        return Some(false);
      }
      var t := Await(None);
      if t.raises {
        return None;
      }
      LoadEffect(db[id], me);
      Execute(id, C.Load(me));
      if me in db[id].mem {
        Remember(id, t.stamp);
        return Some(false);
      }
      created := CreateRuleState(id);
    }

    /** What a rule that was not in memory starts from: the durable cursor, and for a rule without any evaluation
        the baseline that this collector inserted. */
    ghost predicate StateRead(id: int, created: Option<bool>, before: map<int, nat>, from: nat)
      reads `db, `seen, `turn
    {
      match created
      case None => seen == before && Interrupted(from, turn)
      case Some(brandNew) =>
        && id in seen && id in db && seen == before[id := seen[id]] && db[id].cursor == Some(seen[id])
        && (brandNew ==> db[id].traces == [] && db[id].baseline == Some(seen[id]))
    }

    /** Insert the baseline chosen, or find that another collector was first. */
    method CreateRuleState(id: int) returns (created: Option<bool>)
      requires TimersOk() && CursorsOk(Some(id)) && id in db && id !in seen
      requires me !in db[id].mem && me in db[id].booting && me !in db[id].windows
      modifies `turn, `clock, `db, `seen, `last
      ensures Valid() && clock >= old(clock) && db.Keys == old(db).Keys && turn >= old(turn)
      ensures StateRead(id, created, old(seen), old(turn))
    {
      hide TimersOk, AllReachable, C.Apply, C.Enabled;
      var t := Await(Some(id));
      InsertEffect(db[id], me);
      if t.raises {
        Abandon(id, t.written);
        return None;
      }
      var brandNew := db[id].traces == [];
      Execute(id, C.Insert(me));
      if me in db[id].mem {
        Remember(id, t.stamp);
        return Some(brandNew);
      }
      created := LoadWinner(id);
    }

    /** The insertion raised, before or after it was committed. */
    method Abandon(id: int, written: bool)
      requires TimersOk() && CursorsOk(Some(id)) && id in db && id !in seen && C.Enabled(db[id], C.Insert(me))
      modifies `db
      ensures Valid() && db.Keys == old(db).Keys
    {
      hide TimersOk, AllReachable, C.Apply, C.Enabled;
      if written {
        Execute(id, C.Insert(me));
      }
      ForgetEffect(db[id], me);
      Execute(id, C.Forget(me));
    }

    /** Another collector created the cursor: read it. */
    method LoadWinner(id: int) returns (created: Option<bool>)
      requires Valid() && id in db && id !in seen && db[id].cursor.Some?
      modifies `turn, `clock, `db, `seen, `last
      ensures Valid() && clock >= old(clock) && db.Keys == old(db).Keys && turn >= old(turn)
      ensures created != Some(true) && StateRead(id, created, old(seen), old(turn))
    {
      hide TimersOk, AllReachable, C.Apply, C.Enabled;
      var t := Await(None);
      if t.raises {
        return None;
      }
      LoadEffect(db[id], me);
      Execute(id, C.Load(me));
      Remember(id, t.stamp);
      created := Some(false);
    }

    /** `_checkpoint`: write the cursor durably, then advance it in memory; false when the write raises. */
    method Checkpoint(id: int, ghost before: seq<Attempt>, ghost a: Attempt, pass: real) returns (ok: bool)
      requires Working(id) && Acceptable(db[id].windows[me])
      requires Attempts(id) == before + [a] && a.outcome.Unacknowledged? && a.pass == pass
      requires Failures(id) == 0 && id !in retryAfter && forall b <- before :: b.end <= pass
      modifies `turn, `clock, `db, `seen, `last, `attempts
      ensures Valid() && clock >= old(clock) && db.Keys == old(db).Keys && OthersKept(id, old(attempts))
      ensures ok ==>
                && seen == old(seen)[id := old(db)[id].windows[me].to] && last == old(last)[id := pass]
                && Attempts(id) == before + [a.(outcome := Acknowledged)]
                && LastIs(db[id].judged, old(db)[id].windows[me])
      ensures !ok ==>
                && seen == old(seen) && last == old(last) && attempts == old(attempts)
                && Interrupted(old(turn), turn)
      ensures turn >= old(turn)
    {
      hide TimersOk, AllReachable, C.Apply, C.Enabled;
      var to := db[id].windows[me].to;
      var t := Await(Some(id));
      assert Undisturbed(old(db)[id], db[id], me);
      if t.raises {
        Withdraw(id, t.written);
        return false;
      }
      Commit(id);
      Advance(id, to, pass, before, a);
      ok := true;
    }

    /** The cursor is written, and the collector learns of it. */
    method Commit(id: int)
      requires Working(id) && Acceptable(db[id].windows[me])
      modifies `db
      ensures CursorsOk(Some(id)) && db.Keys == old(db).Keys && id in db
      ensures Resting(db[id], me, Some(old(db)[id].windows[me].to))
      ensures LastIs(db[id].judged, old(db)[id].windows[me])
    {
      hide TimersOk, AllReachable, C.Apply, C.Enabled;
      WriteEffect(db[id], me);
      Execute(id, C.Write(me));
      AcknowledgeEffect(db[id], me);
      Execute(id, C.Acknowledge(me));
    }

    /** The window is given up; the write may have been committed all the same. */
    method Withdraw(id: int, written: bool)
      requires Working(id) && (written ==> Acceptable(db[id].windows[me]))
      modifies `db
      ensures Valid() && db.Keys == old(db).Keys
    {
      hide TimersOk, AllReachable, C.Apply, C.Enabled;
      if written {
        WriteEffect(db[id], me);
        Execute(id, C.Write(me));
      }
      GiveUpEffect(db[id], me);
      Execute(id, C.GiveUp(me));
    }

    /** The cursor in memory and the time of the pass that acknowledged it. */
    method Advance(id: int, to: nat, pass: real, ghost before: seq<Attempt>, ghost a: Attempt)
      requires TimersOk() && CursorsOk(Some(id)) && id in db && id in seen && Resting(db[id], me, Some(to))
      requires Attempts(id) == before + [a] && a.outcome.Unacknowledged?
      requires a.pass == pass && Failures(id) == 0 && id !in retryAfter && forall b <- before :: b.end <= pass
      modifies `seen, `last, `attempts
      ensures Valid() && OthersKept(id, old(attempts))
      ensures seen == old(seen)[id := to] && last == old(last)[id := pass]
      ensures Attempts(id) == before + [a.(outcome := Acknowledged)]
    {
      hide PaceOk, TrackAll, LimiterOk, Reachable;
      assert RuleOk(id);
      RuleAcknowledged(id, before, a);
      label Before:
      seen := seen[id := to];
      last := last[id := pass];
      attempts := attempts[id := before + [a.(outcome := Acknowledged)]];
      forall o: int ensures RuleOk(o) {
        assert old@Before(RuleOk(o));
      }
    }

    // ----- a pass over the rules -----

    /** Dispatch a fired window to every target of the rule; false when a dispatch raises. */
    method Serve(id: int, targets: seq<int>) returns (ok: bool)
      requires Working(id) && Sent(db[id].windows[me], targets, 0)
      modifies `turn, `clock, `db
      ensures TimersOk() && clock >= old(clock) && db.Keys == old(db).Keys && turn >= old(turn)
      ensures ok ==>
                && Working(id) && Sent(db[id].windows[me], targets, |targets|)
                && db[id].windows[me].to == old(db)[id].windows[me].to
      ensures !ok ==> Valid() && Interrupted(old(turn), turn)
    {
      hide TimersOk, AllReachable, C.Apply, C.Enabled;
      var i := 0;
      while i < |targets|
        invariant i <= |targets| && Working(id) && clock >= old(clock) && db.Keys == old(db).Keys
        invariant Sent(db[id].windows[me], targets, i) && turn >= old(turn)
        invariant db[id].windows[me].to == old(db)[id].windows[me].to
      {
        var t := Await(Some(id));
        SendEffect(db[id], me, targets, i);
        if t.raises {
          Withdraw(id, false);
          return false;
        }
        Execute(id, C.Send(me));
        i := i + 1;
      }
      ok := true;
    }

    /** A usable verdict: dispatch if it fired, then the checkpoint. */
    method Settle(rule: Rule, pass: real, fired: bool, ghost before: seq<Attempt>, ghost a: Attempt) returns (next: Next)
      requires Working(rule.id) && Unanswered(db[rule.id].windows[me])
      requires Attempts(rule.id) == before + [a] && a.outcome.Unacknowledged? && a.pass == pass
      requires Failures(rule.id) == 0 && rule.id !in retryAfter && forall b <- before :: b.end <= pass
      modifies `turn, `clock, `db, `seen, `last, `attempts
      ensures Valid() && clock >= old(clock) && db.Keys == old(db).Keys && OthersKept(rule.id, old(attempts))
      ensures turn >= old(turn)
      ensures next == NextRule ==>
                && seen == old(seen)[rule.id := old(db)[rule.id].windows[me].to]
                && last == old(last)[rule.id := pass]
                && Attempts(rule.id) == before + [a.(outcome := Acknowledged)]
                && JudgedAs(db[rule.id].judged, fired, rule.targets, old(db)[rule.id].windows[me].to)
      ensures next != NextRule ==>
                && next == Raised && Interrupted(old(turn), turn)
                && seen == old(seen) && last == old(last) && attempts == old(attempts)
    {
      hide TimersOk, AllReachable, C.Apply, C.Enabled;
      var id := rule.id;
      var verdict := if fired then C.Fired else C.Quiet;
      AnswerEffect(db[id], me, verdict, rule.targets);
      Execute(id, C.Answer(me, verdict, rule.targets));
      if fired {
        var served := Serve(id, rule.targets);
        if !served {
          return Raised;
        }
      }
      var ok := Checkpoint(id, before, a, pass);
      next := if ok then NextRule else Raised;
    }

    /** What an attempt leaves behind: a failure puts the rule off; an acknowledged window moves its cursor to the
        window's end; without an acknowledgement, for which there was an exception, the cursor stays. */
    ghost predicate Noted(id: int, a: Attempt, next: Next, kept: map<int, nat>, stamps: map<int, real>, from: nat)
      reads `db, `seen, `last, `turn, `retryFailures, `retryAfter, `attempts
    {
      && (a.outcome.Failed? ==>
            && next == NextRule && seen == kept && last == stamps && id in retryAfter && Failures(id) > 0
            && Failures(id) == Streak(Attempts(id)) && retryAfter[id] == a.end + Delay(cfg.pace, Failures(id)))
      && (a.outcome.Acknowledged? ==>
            && next == NextRule && id in seen && seen == kept[id := seen[id]] && last == stamps[id := a.pass]
            && id in kept && seen[id] > kept[id])
      && (a.outcome.Unacknowledged? ==>
            next == Raised && seen == kept && last == stamps && Interrupted(from, turn))
    }

    lemma NotedSince(id: int, a: Attempt, next: Next, kept: map<int, nat>, stamps: map<int, real>, from: nat, since: nat)
      requires Noted(id, a, next, kept, stamps, from) && since <= from
      ensures Noted(id, a, next, kept, stamps, since)
      ensures if a.outcome.Unacknowledged? then next == Raised && Interrupted(since, turn) else next == NextRule
    {
    }

    /** Read the window, call the model and act on the answer. */
    method JudgeWindow(rule: Rule, pass: real) returns (next: Next, ghost a: Option<Attempt>)
      requires Valid() && rule.id in db && rule.id in seen && Due(rule.id, pass, clock)
      requires cfg.maxPerMin > 0 ==> |Recent(calls, clock)| < cfg.maxPerMin
      requires exists x <- db[rule.id].events :: x > seen[rule.id]
      modifies this
      ensures Valid() && clock >= old(clock) && db.Keys == old(db).Keys && OthersKept(rule.id, old(attempts))
      ensures |history| == |old(history)| + 1 && old(history) <= history
      ensures a.None? ==>
                && next == Raised && Interrupted(old(turn), turn)
                && seen == old(seen) && last == old(last) && attempts == old(attempts)
      ensures a.Some? ==>
                && Attempts(rule.id) == old(Attempts(rule.id)) + [a.value] && a.value.pass == pass
                && Noted(rule.id, a.value, next, old(seen), old(last), old(turn))
      ensures if a.Some? && !a.value.outcome.Unacknowledged? then next == NextRule
              else next == Raised && Interrupted(old(turn), turn)
    {
      hide TimersOk, AllReachable, C.Apply, C.Enabled, Noted, Found;
      var id := rule.id;
      NoteCall();
      ghost var call := clock;
      var read := ReadWindow(id);
      if !read {
        return Raised, None;
      }
      ghost var attempt, asked := Attempt(0.0, 0.0, 0.0, Failed), turn;
      next, attempt := JudgeOpened(rule, pass, call);
      NotedSince(id, attempt, next, old(seen), old(last), asked, old(turn));
      a := Some(attempt);
    }

    /** The model call and what follows from its answer. */
    method JudgeOpened(rule: Rule, pass: real, ghost call: real) returns (next: Next, ghost a: Attempt)
      requires Working(rule.id) && Unanswered(db[rule.id].windows[me]) && Due(rule.id, pass, call) && call <= clock
      requires db[rule.id].windows[me].to > seen[rule.id]
      modifies this
      ensures Valid() && clock >= old(clock) && db.Keys == old(db).Keys && OthersKept(rule.id, old(attempts))
      ensures history == old(history) && turn >= old(turn)
      ensures Attempts(rule.id) == old(Attempts(rule.id)) + [a] && a.pass == pass
      ensures a.outcome.Failed? <==> !(script(old(turn)).reachable && script(old(turn)).usable)
      ensures a.outcome.Acknowledged? ==>
                && rule.id in seen && seen[rule.id] == old(db)[rule.id].windows[me].to
                && JudgedAs(db[rule.id].judged, script(old(turn)).fired, rule.targets, seen[rule.id])
      ensures Noted(rule.id, a, next, old(seen), old(last), old(turn))
    {
      hide TimersOk, AllReachable, C.Apply, C.Enabled, Noted, Due;
      ghost var asked := turn;
      var t := AskModel(rule.id);
      ghost var answered := turn;
      if t.reachable && t.usable {
        next, a := Answered(rule, pass, call, t.fired);
      } else {
        next := NextRule;
        a := Unanswerable(rule.id, pass, call);
      }
      NotedSince(rule.id, a, next, old(seen), old(last), answered, asked);
    }

    /** No usable answer: the window is kept for a retry that has to wait. */
    method Unanswerable(id: int, ghost pass: real, ghost call: real) returns (ghost a: Attempt)
      requires Working(id) && Due(id, pass, call) && call <= clock
      modifies `turn, `clock, `db, `retryFailures, `retryAfter, `attempts
      ensures Valid() && clock >= old(clock) && db.Keys == old(db).Keys && OthersKept(id, old(attempts))
      ensures Attempts(id) == old(Attempts(id)) + [a] && a.pass == pass && a.outcome.Failed?
      ensures turn >= old(turn) && Noted(id, a, NextRule, seen, last, old(turn))
    {
      hide TimersOk, AllReachable, C.Apply, C.Enabled, Delay, Streak;
      a := NoteFailure(id, pass, call);
      Withdraw(id, false);
    }

    /** A usable answer. */
    method Answered(rule: Rule, pass: real, ghost call: real, fired: bool) returns (next: Next, ghost a: Attempt)
      requires Working(rule.id) && Unanswered(db[rule.id].windows[me]) && Due(rule.id, pass, call) && call <= clock
      requires db[rule.id].windows[me].to > seen[rule.id]
      modifies `turn, `clock, `db, `seen, `last, `retryFailures, `retryAfter, `attempts
      ensures Valid() && clock >= old(clock) && db.Keys == old(db).Keys && OthersKept(rule.id, old(attempts))
      ensures Attempts(rule.id) == old(Attempts(rule.id)) + [a] && a.pass == pass && !a.outcome.Failed?
      ensures a.outcome.Acknowledged? ==>
                && rule.id in seen && seen[rule.id] == old(db)[rule.id].windows[me].to
                && JudgedAs(db[rule.id].judged, fired, rule.targets, seen[rule.id])
      ensures turn >= old(turn) && Noted(rule.id, a, next, old(seen), old(last), old(turn))
    {
      hide TimersOk, AllReachable, C.Apply, C.Enabled;
      ghost var before := Attempts(rule.id);
      a := Attempt(pass, call, clock, Unacknowledged);
      ClearFailure(rule.id, pass, call);
      next := Settle(rule, pass, fired, before, a);
      if next == NextRule {
        a := a.(outcome := Acknowledged);
      }
    }

    /** The call, the health notice that follows from it, and the trace row. */
    method AskModel(id: int) returns (t: Turn)
      requires Working(id) && Unanswered(db[id].windows[me])
      modifies `turn, `clock, `db, `downSince, `outageNotified, `lastOutageAlert, `notices, `reaches
      ensures Working(id) && Unanswered(db[id].windows[me]) && clock >= old(clock) && db.Keys == old(db).Keys
      ensures t == script(old(turn)) && turn >= old(turn) && db[id].windows[me] == old(db)[id].windows[me]
      ensures |reaches| == |old(reaches)| + 1 && old(reaches) <= reaches && reaches[|old(reaches)|].ok == t.reachable
      ensures notices == old(notices) + DueNotices(cfg.outageAlert, old(notices), reaches[|old(reaches)|])
    {
      hide TimersOk, AllReachable, C.Apply, C.Enabled, DueNotices;
      t := Await(Some(id));
      assert Undisturbed(old(db)[id], db[id], me);
      TrackLlmHealth(t.reachable);
      label Tracked:
      var trace := Await(Some(id));
      assert Undisturbed(old@Tracked(db)[id], db[id], me);
    }

    /** Read the next window; false when that raises. */
    method ReadWindow(id: int) returns (ok: bool)
      requires Valid() && id in db && id in seen && exists x <- db[id].events :: x > seen[id]
      modifies `turn, `clock, `db
      ensures TimersOk() && clock >= old(clock) && db.Keys == old(db).Keys && turn >= old(turn)
      ensures ok ==> Working(id) && Unanswered(db[id].windows[me]) && db[id].windows[me].to > seen[id]
      ensures !ok ==> Valid() && Interrupted(old(turn), turn)
    {
      hide TimersOk, AllReachable, C.Apply, C.Enabled;
      ghost var x :| x in db[id].events && x > seen[id];
      var t := Await(None);
      if t.raises {
        return false;
      }
      assert Undisturbed(old(db)[id], db[id], me) && x in db[id].events;
      OpenWindow(id);
      ok := true;
    }

    /** The events of the next window. */
    method OpenWindow(id: int)
      requires Valid() && id in db && id in seen && exists x <- db[id].events :: x > seen[id]
      modifies `db
      ensures Working(id) && Unanswered(db[id].windows[me]) && db.Keys == old(db).Keys
      ensures db[id].windows[me].to > seen[id]
    {
      hide TimersOk, C.Apply, C.Enabled;
      CursorKnown(db[id], me);
      var to, ids := SelectWindow(db[id].events, seen[id]);
      ReadEffect(db[id], me, to, ids);
      Execute(id, C.Read(me, to, ids));
    }

    /** How many new events judge a rule early, and how long it waits otherwise. */
    function Spike(rule: Rule): nat {
      if rule.spikeLines != 0 then rule.spikeLines else cfg.spike
    }

    function MaxInterval(rule: Rule): real {
      if rule.windowSeconds != 0 then rule.windowSeconds as real else 3600.0
    }

    /** What each answer of the gates says of the rule: its gates are tried in this order. */
    ghost predicate Found(met: Met, rule: Rule, pass: real)
      requires rule.id in db && rule.id in seen && rule.id in last
      reads `db, `seen, `last, `retryAfter, `clock, `history
    {
      var elapsed, cnt := pass - last[rule.id], CountAfter(db[rule.id].events, seen[rule.id]);
      var ripe := cnt > 0 && elapsed >= cfg.pace.minInterval && (elapsed >= MaxInterval(rule) || cnt >= Spike(rule));
      match met
      case NothingNew => cnt == 0
      case TooSoon => cnt > 0 && elapsed < cfg.pace.minInterval
      case TooFew => cnt > 0 && elapsed >= cfg.pace.minInterval && elapsed < MaxInterval(rule) && cnt < Spike(rule)
      case BackingOff => ripe && !Ready(rule.id)
      case Full => ripe && Ready(rule.id) && !Room()
      case Admitted => ripe && Ready(rule.id) && Room()
      case _ => false
    }

    ghost predicate Ready(id: int)
      reads `retryAfter, `clock
    {
      id !in retryAfter || clock >= retryAfter[id]
    }

    /** Fewer calls than the ceiling in the last minute, or no ceiling. */
    ghost predicate Room()
      reads `history, `clock
    {
      cfg.maxPerMin > 0 ==> |Within(history, clock - WINDOW, clock)| < cfg.maxPerMin
    }

    /** The gates, in their order. */
    method Gate(rule: Rule, pass: real) returns (met: Met)
      requires Valid() && rule.id in db && rule.id in seen && pass <= clock
      requires forall a <- Attempts(rule.id) :: a.end <= pass
      modifies `turn, `clock, `db, `calls
      ensures Valid() && clock >= old(clock) && db.Keys == old(db).Keys && turn > old(turn)
      ensures met.Unreadable? || (!met.Unloaded? && !met.Baselined? && Found(met, rule, pass))
      ensures met.Unreadable? <==> script(old(turn)).raises
      ensures met.Admitted? ==>
                && Due(rule.id, pass, clock) && (cfg.maxPerMin > 0 ==> |Recent(calls, clock)| < cfg.maxPerMin)
                && exists x <- db[rule.id].events :: x > seen[rule.id]
    {
      hide TimersOk, AllReachable, Within;
      var id := rule.id;
      var t := Await(None);
      if t.raises {
        return Unreadable;
      }
      var cnt := CountAfter(db[id].events, seen[id]);
      if cnt == 0 {
        return NothingNew;
      }
      var elapsed := pass - last[id];
      if elapsed < cfg.pace.minInterval {
        return TooSoon;
      }
      if elapsed < MaxInterval(rule) && cnt < Spike(rule) {
        return TooFew;
      }
      met := TimerGates(id, pass);
    }

    /** The backoff, then the rolling-minute ceiling, which ends the pass. */
    method TimerGates(id: int, pass: real) returns (met: Met)
      requires TimersOk() && id in last && pass <= clock && pass - last[id] >= cfg.pace.minInterval
      requires forall a <- Attempts(id) :: a.end <= pass
      modifies `turn, `clock, `calls
      ensures TimersOk() && clock >= old(clock) && turn >= old(turn)
      ensures met == if !Ready(id) then BackingOff else if !Room() then Full else Admitted
      ensures met.Admitted? ==> Due(id, pass, clock) && (cfg.maxPerMin > 0 ==> |Recent(calls, clock)| < cfg.maxPerMin)
    {
      hide LimiterOk, HealthOk;
      var ready := RetryReady(id);
      if !ready {
        return BackingOff;
      }
      assert RuleOk(id);
      var room := RateOk();
      met := if room then Admitted else Full;
    }

    /** One rule of the pass: the model is called just when the rule is admitted, and what else it met is so. */
    method EvalRule(rule: Rule, pass: real) returns (next: Next, ghost met: Met)
      requires Valid() && rule.id in db && pass <= clock && forall a <- Attempts(rule.id) :: a.end <= pass
      modifies this
      ensures Valid() && clock >= old(clock) && db.Keys == old(db).Keys && OthersKept(rule.id, old(attempts))
      ensures old(history) <= history && |history| == |old(history)| + (if met.Admitted? then 1 else 0)
      ensures !met.Admitted? ==> next == After(met) && attempts == old(attempts)
      ensures met.Unloaded? || met.Unreadable? ==> Interrupted(old(turn), turn)
      ensures met.Baselined? ==>
                && rule.id !in old(seen) && rule.id in seen
                && db[rule.id].traces == [] && db[rule.id].baseline == db[rule.id].cursor == Some(seen[rule.id])
      ensures !(met.Unloaded? || met.Baselined? || met.Unreadable? || met.Admitted?) ==>
                rule.id in seen && rule.id in last && Found(met, rule, pass)
      ensures met.Admitted? ==>
                if next == NextRule then
                  && |Attempts(rule.id)| == |old(Attempts(rule.id))| + 1
                  && !Attempts(rule.id)[|old(Attempts(rule.id))|].outcome.Unacknowledged?
                else next == Raised && Interrupted(old(turn), turn)
    {
      hide TimersOk, AllReachable, Within, Found, Noted, Due;
      var created := EnsureRuleState(rule.id);
      if created.None? {
        return Raised, Unloaded;
      }
      if created.value {
        return NextRule, Baselined;
      }
      var gate := Gate(rule, pass);
      met := gate;
      if gate.Admitted? {
        ghost var a;
        next, a := JudgeWindow(rule, pass);
      } else {
        next := After(gate);
      }
    }

    /** `_eval`: one pass over the rules; a ceiling reached or an exception ends it. */
    method Eval(rules: seq<Rule>)
      requires Valid() && forall i | 0 <= i < |rules| :: rules[i].id in db
      requires forall i, j | 0 <= i < j < |rules| :: rules[i].id != rules[j].id
      modifies this
      ensures Valid() && clock >= old(clock)
    {
      hide TimersOk, CursorsOk, Within, Found;
      var pass := clock;
      var next := NextRule;
      var i := 0;
      PassStarts();
      while i < |rules| && next == NextRule
        invariant i <= |rules| && Valid() && clock >= pass && db.Keys == old(db).Keys
        invariant forall k | i <= k < |rules| :: forall a <- Attempts(rules[k].id) :: a.end <= pass
      {
        ghost var before := attempts;
        ghost var met;
        next, met := EvalRule(rules[i], pass);
        i := i + 1;
        assert forall k | i <= k < |rules| :: Get(attempts, rules[k].id) == Get(before, rules[k].id);
      }
    }

    lemma PassStarts()
      requires TimersOk()
      ensures forall id: int :: forall a <- Attempts(id) :: a.end <= clock
    {
      forall id: int ensures forall a <- Attempts(id) :: a.end <= clock {
        assert RuleOk(id);
      }
    }

    // ----- what every pass keeps -----

    /** Whatever happened so far: no minute held more calls than the ceiling, the verdicts of every rule came no
        faster than backoff and minimum interval allow, and the notices are well spaced. */
    lemma Pacing(id: int, t: real)
      requires Valid()
      ensures cfg.maxPerMin > 0 ==> |Within(history, t - WINDOW, t)| <= cfg.maxPerMin
      ensures Paced(cfg.pace, Attempts(id))
      ensures cfg.outageAlert > 0.0 ==> NoticesOk(cfg.outageAlert, notices)
    {
      if cfg.maxPerMin > 0 {
        LimitedMeans(history, cfg.maxPerMin, t);
      }
      assert RuleOk(id);
      if cfg.outageAlert > 0.0 {
        NoticesKeepDistance(cfg.outageAlert, reaches);
      }
    }

    /** After an acknowledged window, the next pass that calls the model for the rule starts no sooner than the
        minimum interval after the pass before; the calls themselves may be closer by as much as the first was late
        in its pass. */
    lemma SuccessWaits(id: int, j: nat, k: nat)
      requires Valid() && j < k < |Attempts(id)| && Attempts(id)[j].outcome.Acknowledged?
      ensures Attempts(id)[k].pass - Attempts(id)[j].pass >= cfg.pace.minInterval
      ensures Attempts(id)[k].call - Attempts(id)[j].call >=
              cfg.pace.minInterval - (Attempts(id)[j].call - Attempts(id)[j].pass)
    {
      assert RuleOk(id);
    }

    /** `n` failures of a rule in a row take at least the sum of the first `n` - 1 delays. */
    lemma FailuresWait(id: int, i: nat, n: nat)
      requires Valid() && n > 0 && i + n <= |Attempts(id)| && Streak(Attempts(id)[..i]) == 0
      requires forall k | i <= k < i + n :: Attempts(id)[k].outcome.Failed?
      ensures Attempts(id)[i + n - 1].call - Attempts(id)[i].call >= TotalDelay(cfg.pace, n - 1)
    {
      assert RuleOk(id);
      StreakTakes(cfg.pace, Attempts(id), i, n);
    }

    /** Every event of a rule was judged just when some acknowledged window over it was read while it was visible,
        and what the program's cursor has passed lies in acknowledged windows. */
    lemma NothingSkipped(id: int, x: nat)
      requires Valid() && id in db
      ensures C.IsJudged(db[id].judged, x) <==> C.SpannedInTime(db[id].events, db[id].judged, x)
      ensures id in seen && db[id].baseline.Some? && db[id].baseline.value < x <= seen[id] ==>
                C.Spanned(db[id].judged, x)
    {
      hide TimersOk;
      var tr, steps :| C.IsRun(tr, steps) && tr[|steps|] == db[id];
      var v := if id in seen then seen[id] else 0;
      assert Resting(db[id], me, Get(seen, id));
      assert id in seen ==> me in db[id].mem && db[id].mem[me] == v;
      C.NothingSkipped(tr, steps, |steps|, v, x);
    }
  }
}
