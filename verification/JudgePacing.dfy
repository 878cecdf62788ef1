/**
 How often the judge may call its model and what it says about outages: the rolling-minute ceiling, the
 backoff of failing rules, and the outage notices, as functions of what has happened.  Times are seconds on
 one clock that never goes back.
 */
module JudgePacing {
  import opened Options
  import opened Sets

  // ----- the rolling-minute ceiling -----

  const WINDOW := 60.0

  ghost predicate Chronological(times: seq<real>) {
    forall i, j :: 0 <= i < j < |times| ==> times[i] <= times[j]
  }

  /** What the trimming loop leaves. */
  function Recent(times: seq<real>, now: real): seq<real> {
    if times != [] && now - times[0] > WINDOW then Recent(times[1..], now) else times
  }

  /** The calls from `from` to `to`. */
  ghost function Within(times: seq<real>, from: real, to: real): set<int> {
    set i | 0 <= i < |times| && from <= times[i] <= to
  }

  /** Any `max` + 1 consecutive calls take more than a minute; without a positive maximum nothing is limited. */
  ghost predicate Limited(times: seq<real>, max: int) {
    max > 0 ==> forall i, j | 0 <= i && i + max <= j < |times| :: times[j] - times[i] > WINDOW
  }

  ghost function Indices(lo: int, hi: int): (s: set<int>)
    requires lo <= hi
    ensures |s| == hi - lo && forall i :: i in s <==> lo <= i < hi
    decreases hi - lo
  {
    if lo == hi then {} else Indices(lo, hi - 1) + {hi - 1}
  }

  /** Trimming keeps a tail, and what it drops is more than a minute old. */
  lemma {:induction false} RecentIsTail(times: seq<real>, now: real)
    ensures |Recent(times, now)| <= |times| && Recent(times, now) == times[|times| - |Recent(times, now)|..]
    ensures forall i | 0 <= i < |times| - |Recent(times, now)| :: now - times[i] > WINDOW
    ensures Recent(times, now) != [] ==> now - Recent(times, now)[0] <= WINDOW
  {
    if times != [] && now - times[0] > WINDOW {
      RecentIsTail(times[1..], now);
    }
  }

  /** The length of the trimmed queue is the number of calls in the last minute of the whole history. */
  lemma RecentCounts(times: seq<real>, now: real)
    requires Chronological(times) && forall t <- times :: t <= now
    ensures |Recent(times, now)| == |Within(times, now - WINDOW, now)|
  {
    RecentIsTail(times, now);
    var n := |times| - |Recent(times, now)|;
    var within, recent := Within(times, now - WINDOW, now), Indices(n, |times|);
    forall i | i in recent ensures i in within {
      assert times[n] == Recent(times, now)[0] && times[n] <= times[i] && times[i] in times;
    }
    SubsetSize(within, recent);
    SubsetSize(recent, within);
  }

  /** Trimming twice is trimming once, later. */
  lemma {:induction false} RecentAgain(times: seq<real>, now: real, later: real)
    requires now <= later
    ensures Recent(Recent(times, now), later) == Recent(times, later)
  {
    if times != [] && now - times[0] > WINDOW {
      RecentAgain(times[1..], now, later);
    }
  }

  /** No minute holds more calls than the ceiling. */
  lemma LimitedMeans(times: seq<real>, max: int, t: real)
    requires Chronological(times) && Limited(times, max) && max > 0
    ensures |Within(times, t - WINDOW, t)| <= max
  {
    var within := Within(times, t - WINDOW, t);
    if k :| k in within {
      var i := Earliest(within, k);
      var room := Indices(i, i + max);
      forall k | k in within ensures k in room {
        assert times[k] - times[i] <= WINDOW;
      }
      SubsetSize(within, room);
    } else {
      assert within == {};
    }
  }

  lemma {:induction false} Earliest(s: set<int>, i: int) returns (m: int)
    requires i in s
    ensures m in s && forall k <- s :: m <= k
    decreases |s|
  {
    var rest := s - {i};
    m := i;
    if k :| k in rest {
      var least := Earliest(rest, k);
      m := if least < i then least else i;
      assert forall k <- s :: k == i || k in rest;
    } else {
      assert forall k <- s :: k == i || k in rest;
    }
  }

  /** A call made after a check that found room keeps the limit. */
  lemma CallKeepsLimit(times: seq<real>, max: int, checked: real, at: real)
    requires Limited(times, max) && checked <= at
    requires max > 0 ==> |Recent(times, checked)| < max
    ensures Limited(times + [at], max)
  {
    RecentIsTail(times, checked);
    var all := times + [at];
    if max > 0 {
      forall i, j | 0 <= i && i + max <= j < |all| ensures all[j] - all[i] > WINDOW {
        if j == |times| {
          assert checked - times[i] > WINDOW;
        } else {
          assert times[j] - times[i] > WINDOW;
        }
      }
    }
  }

  // ----- backoff -----

  /** `SEMANTIC_TICK` and `SEMANTIC_MIN_INTERVAL`. */
  datatype Pace = Pace(tick: real, minInterval: real) {
    function Base(): real {
      if tick > 1.0 then tick else 1.0
    }

    function Cap(): real {
      if minInterval > Base() then minInterval else Base()
    }
  }

  function Doubled(base: real, n: nat): real {
    if n == 0 then base else 2.0 * Doubled(base, n - 1)
  }

  /** The delay after so many consecutive failures. */
  function Delay(p: Pace, failures: nat): real
    requires failures > 0
  {
    var grown := Doubled(p.Base(), if failures - 1 < 10 then failures - 1 else 10);
    if grown < p.Cap() then grown else p.Cap()
  }

  lemma {:induction false} DoubledGrows(base: real, m: nat, n: nat)
    requires base > 0.0 && m <= n
    ensures base <= Doubled(base, m) <= Doubled(base, n)
    decreases n
  {
    if m < n {
      DoubledGrows(base, m, n - 1);
    } else if m > 0 {
      DoubledGrows(base, m - 1, n - 1);
    }
  }

  /** Delays never shrink and stay between the tick and the larger of tick and minimum interval. */
  lemma DelayBounds(p: Pace, m: nat, n: nat)
    requires 0 < m <= n
    ensures p.Base() <= Delay(p, m) <= Delay(p, n) <= p.Cap()
  {
    DoubledGrows(p.Base(), if m - 1 < 10 then m - 1 else 10, if n - 1 < 10 then n - 1 else 10);
  }

  datatype Outcome = Failed | Acknowledged | Unacknowledged

  /** One verdict: when its pass over the rules started, when the model was called, and when the outcome was noted. */
  datatype Attempt = Attempt(pass: real, call: real, end: real, outcome: Outcome)

  /** The failures since the last verdict that was usable. */
  function Streak(attempts: seq<Attempt>): nat {
    if attempts == [] || !attempts[|attempts| - 1].outcome.Failed? then 0
    else Streak(attempts[..|attempts| - 1]) + 1
  }

  ghost predicate InOrder(attempts: seq<Attempt>) {
    && (forall k | 0 <= k < |attempts| :: attempts[k].pass <= attempts[k].call <= attempts[k].end)
    && (forall j, k | 0 <= j < k < |attempts| :: attempts[j].end <= attempts[k].call)
  }

  /** If the attempt before failed, this one has waited for the delay of the streak so far. */
  ghost predicate Waited(p: Pace, attempts: seq<Attempt>, k: nat)
    requires 0 < k < |attempts|
  {
    attempts[k - 1].outcome.Failed? ==>
      Streak(attempts[..k]) > 0 && attempts[k].call >= attempts[k - 1].end + Delay(p, Streak(attempts[..k]))
  }

  ghost predicate BackedOff(p: Pace, attempts: seq<Attempt>) {
    forall k | 0 < k < |attempts| :: Waited(p, attempts, k)
  }

  /** After an acknowledged window, every later pass that calls the model waits for the minimum interval. */
  ghost predicate Floored(p: Pace, attempts: seq<Attempt>) {
    forall j, k | 0 <= j < k < |attempts| && attempts[j].outcome.Acknowledged? ::
      attempts[k].pass >= attempts[j].pass + p.minInterval
  }

  /** The attempts of one rule come no faster than the backoff and the minimum interval allow. */
  ghost predicate Paced(p: Pace, attempts: seq<Attempt>) {
    InOrder(attempts) && BackedOff(p, attempts) && Floored(p, attempts)
  }

  function TotalDelay(p: Pace, n: nat): real {
    if n == 0 then 0.0 else TotalDelay(p, n - 1) + Delay(p, n)
  }

  lemma {:induction false} StreakOf(attempts: seq<Attempt>, i: nat, n: nat)
    requires i + n <= |attempts| && Streak(attempts[..i]) == 0
    requires forall k | i <= k < i + n :: attempts[k].outcome.Failed?
    ensures Streak(attempts[..i + n]) == n
    decreases n
  {
    if n > 0 {
      StreakOf(attempts, i, n - 1);
      assert attempts[..i + n][..i + n - 1] == attempts[..i + n - 1];
    }
  }

  /** `n` failures in a row take at least the sum of the first `n` - 1 delays. */
  lemma {:induction false} StreakTakes(p: Pace, attempts: seq<Attempt>, i: nat, n: nat)
    requires Paced(p, attempts) && n > 0 && i + n <= |attempts| && Streak(attempts[..i]) == 0
    requires forall k | i <= k < i + n :: attempts[k].outcome.Failed?
    ensures attempts[i + n - 1].call - attempts[i].call >= TotalDelay(p, n - 1)
    decreases n
  {
    if n > 1 {
      StreakTakes(p, attempts, i, n - 1);
      StreakOf(attempts, i, n - 1);
      assert attempts[i + n - 2].outcome.Failed? && Waited(p, attempts, i + n - 1);
    }
  }

  // ----- outage notices -----

  /** `_down_since`, `_outage_notified` and `_last_outage_alert`. */
  datatype Health = Health(downSince: Option<real>, notified: bool, lastAlert: Option<real>)

  datatype Reach = Reach(ok: bool, at: real)

  datatype Notice = Outage(at: real) | Recovery(at: real)

  /** `_track_llm_health`. */
  function Track(interval: real, h: Health, r: Reach): (Health, seq<Notice>) {
    if interval <= 0.0 then (h, [])
    else if r.ok then (Health(None, false, h.lastAlert), if h.notified then [Recovery(r.at)] else [])
    else
      var downSince := if h.downSince.None? then Some(r.at) else h.downSince;
      if h.lastAlert.None? || r.at - h.lastAlert.value >= interval then
        (Health(downSince, true, Some(r.at)), [Outage(r.at)])
      else (h.(downSince := downSince), [])
  }

  /** Where the health tracking is after these calls, and the notices it has sent. */
  function TrackAll(interval: real, reaches: seq<Reach>): (Health, seq<Notice>) {
    if reaches == [] then (Health(None, false, None), [])
    else
      var (h, notices) := TrackAll(interval, reaches[..|reaches| - 1]);
      var (h', more) := Track(interval, h, reaches[|reaches| - 1]);
      (h', notices + more)
  }

  function LastOutage(notices: seq<Notice>): Option<real> {
    if notices == [] then None
    else if notices[|notices| - 1].Outage? then Some(notices[|notices| - 1].at)
    else LastOutage(notices[..|notices| - 1])
  }

  predicate Open(notices: seq<Notice>) {
    notices != [] && notices[|notices| - 1].Outage?
  }

  /** What is due, said in terms of the notices alone. */
  function DueNotices(interval: real, notices: seq<Notice>, r: Reach): seq<Notice> {
    if interval <= 0.0 then []
    else if r.ok then (if Open(notices) then [Recovery(r.at)] else [])
    else if LastOutage(notices).None? || r.at - LastOutage(notices).value >= interval then [Outage(r.at)]
    else []
  }

  /** What the fields have to remember of the notices. */
  predicate Remembers(h: Health, notices: seq<Notice>) {
    h.notified == Open(notices) && h.lastAlert == LastOutage(notices)
  }

  lemma TrackRemembers(interval: real, h: Health, notices: seq<Notice>, r: Reach)
    requires Remembers(h, notices)
    ensures Remembers(Track(interval, h, r).0, notices + Track(interval, h, r).1)
    ensures Track(interval, h, r).1 == DueNotices(interval, notices, r)
  {
    var more := Track(interval, h, r).1;
    if more == [] {
      assert notices + more == notices;
    } else {
      assert (notices + more)[..|notices|] == notices;
    }
  }

  /** The three fields remember of the notices all that matters. */
  lemma {:induction false} FieldsSuffice(interval: real, reaches: seq<Reach>)
    ensures Remembers(TrackAll(interval, reaches).0, TrackAll(interval, reaches).1)
  {
    if reaches != [] {
      hide Track, Remembers;
      var rest := reaches[..|reaches| - 1];
      FieldsSuffice(interval, rest);
      var (h, notices) := TrackAll(interval, rest);
      TrackRemembers(interval, h, notices, reaches[|reaches| - 1]);
    }
  }

  /** After each call exactly the due notices go out: after a success one recovery if the last notice was an
      outage, after a failure an outage if there was none for the whole interval. */
  lemma NoticesAreDue(interval: real, reaches: seq<Reach>, r: Reach)
    ensures TrackAll(interval, reaches + [r]).1 ==
            TrackAll(interval, reaches).1 + DueNotices(interval, TrackAll(interval, reaches).1, r)
  {
    hide Track, DueNotices, Remembers;
    assert (reaches + [r])[..|reaches|] == reaches;
    FieldsSuffice(interval, reaches);
    TrackRemembers(interval, TrackAll(interval, reaches).0, TrackAll(interval, reaches).1, r);
  }

  /** Outage notices are an interval apart, and each recovery directly follows an outage notice. */
  ghost predicate NoticesOk(interval: real, notices: seq<Notice>) {
    && (forall i, j | 0 <= i < j < |notices| && notices[i].Outage? && notices[j].Outage? ::
          notices[j].at - notices[i].at >= interval)
    && (forall i | 0 <= i < |notices| && notices[i].Recovery? :: i > 0 && notices[i - 1].Outage?)
  }

  lemma {:induction false} LastOutageIsLast(notices: seq<Notice>, i: nat)
    requires i < |notices| && notices[i].Outage?
    ensures LastOutage(notices).Some?
    ensures exists k :: i <= k < |notices| && notices[k] == Outage(LastOutage(notices).value)
  {
    if !notices[|notices| - 1].Outage? {
      LastOutageIsLast(notices[..|notices| - 1], i);
    }
  }

  lemma OutageAppends(interval: real, notices: seq<Notice>, at: real)
    requires interval > 0.0 && NoticesOk(interval, notices)
    requires LastOutage(notices).Some? ==> at - LastOutage(notices).value >= interval
    ensures NoticesOk(interval, notices + [Outage(at)])
  {
    forall i | 0 <= i < |notices| && notices[i].Outage? ensures at - notices[i].at >= interval {
      LastOutageIsLast(notices, i);
      var k :| i <= k < |notices| && notices[k] == Outage(LastOutage(notices).value);
      assert i < k ==> notices[k].at - notices[i].at >= interval;
    }
  }

  lemma RecoveryAppends(interval: real, notices: seq<Notice>, at: real)
    requires NoticesOk(interval, notices) && Open(notices)
    ensures NoticesOk(interval, notices + [Recovery(at)])
  {
  }

  lemma {:induction false} NoticesKeepDistance(interval: real, reaches: seq<Reach>)
    requires interval > 0.0
    ensures NoticesOk(interval, TrackAll(interval, reaches).1)
  {
    if reaches != [] {
      var rest, r := reaches[..|reaches| - 1], reaches[|reaches| - 1];
      NoticesKeepDistance(interval, rest);
      assert reaches == rest + [r];
      NoticesAreDue(interval, rest, r);
      var notices := TrackAll(interval, rest).1;
      if r.ok && Open(notices) {
        RecoveryAppends(interval, notices, r.at);
      } else if DueNotices(interval, notices, r) != [] {
        OutageAppends(interval, notices, r.at);
      } else {
        assert notices + [] == notices;
      }
    }
  }

  /** Right after a failure, the last outage notice is less than an interval old. */
  lemma FailureIsKnown(interval: real, reaches: seq<Reach>)
    requires interval > 0.0 && reaches != [] && !reaches[|reaches| - 1].ok
    ensures var last := LastOutage(TrackAll(interval, reaches).1);
            last.Some? && reaches[|reaches| - 1].at - last.value < interval
  {
    var rest, r := reaches[..|reaches| - 1], reaches[|reaches| - 1];
    assert reaches == rest + [r];
    NoticesAreDue(interval, rest, r);
    var notices := TrackAll(interval, rest).1;
    if DueNotices(interval, notices, r) == [] {
      assert notices + [] == notices;
    }
  }
}
