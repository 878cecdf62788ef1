/**
 The coordinator's incidents for stateless targets: open, throttle, push again.  Between two statements time
 passes, and any statement or push may raise; a statement that raises may have been committed all the same.
 One process handles one firing of a key at a time.

 `Fire` says what one firing does; the coordinator is proved to do that, and the laws are laws of `Fire`.
 */
module Throttle {
  import opened Options

  datatype Params = Params(reuseTtl: real, feedEvery: real)

  datatype Incident = Incident(
    handle: Option<string>, openedAt: real, lastEventAt: real, lastFedAt: Option<real>, eventCount: nat, open: bool)

  /** An attempt to push to the target, whether it went out, and whether the incident's row was stamped for it. */
  datatype Push = Push(at: real, sent: bool, stamped: bool)

  datatype Disposition = Opened | Fed | Throttled | Fallback | Error

  /** What one wait comes back with; `early` chooses between the earliest and the latest time for a row or a push. */
  datatype Turn = Turn(elapsed: real, raises: bool, written: bool, early: bool, pushed: bool, handle: string)

  /** What a firing did to the count: started it, was counted, or left no mark. */
  datatype Mark = Started | Counted | Missed

  /** The firings of a key since its incident was last opened, and those of them that left no mark on the row. */
  datatype Tally = Tally(firings: nat, missed: nat)

  datatype Result = Result(row: Option<Incident>, attempts: seq<Push>, mark: Mark, d: Disposition, turns: nat, clock: real)

  // ----- one firing -----

  function Later(clock: real, t: Turn): real {
    if t.elapsed > 0.0 then clock + t.elapsed else clock
  }

  /** The time that a statement or push of this wait bears. */
  function Moment(clock: real, t: Turn): real {
    if t.early then clock else Later(clock, t)
  }

  predicate Reusable(p: Params, row: Option<Incident>, now: real) {
    row.Some? && row.value.open && row.value.handle.Some? && now - row.value.lastEventAt < p.reuseTtl
  }

  /** A reusable incident was pushed lately; a row without a push time counts from the epoch. */
  predicate Recent(p: Params, inc: Incident, now: real) {
    now - (if inc.lastFedAt.Some? then inc.lastFedAt.value else 0.0) < p.feedEvery
  }

  /** A firing handled now pushes. */
  predicate Admits(p: Params, row: Option<Incident>, now: real) {
    !(Reusable(p, row, now) && Recent(p, row.value, now))
  }

  /** `_bump_incident`: count the firing, and stamp the push if there was one. */
  function Bumped(inc: Incident, fed: bool, now: real): Incident {
    var row := inc.(lastEventAt := now, eventCount := inc.eventCount + 1);
    if fed then row.(lastFedAt := Some(now)) else row
  }

  function BumpResult(inc: Incident, clock: real, t: Turn, attempt: Option<Push>, d: Disposition, turns: nat): Result {
    var stamped := !t.raises || t.written;
    var attempts := if attempt.Some? then [attempt.value.(stamped := stamped)] else [];
    if stamped then
      Result(Some(Bumped(inc, attempt.Some?, Moment(clock, t))), attempts, Counted, if t.raises then Error else d,
             turns + 1, Later(clock, t))
    else Result(Some(inc), attempts, Missed, Error, turns + 1, Later(clock, t))
  }

  /** `_feed_stateless`: throttle, or push again and stamp the row whether or not the push went out. */
  function FeedResult(p: Params, inc: Incident, clock: real, t: Turn, u: Turn, turns: nat): Result {
    if Recent(p, inc, clock) then BumpResult(inc, clock, t, None, Throttled, turns)
    else
      var attempt := Push(Moment(clock, t), t.pushed && !t.raises, false);
      if t.raises then Result(Some(inc), [attempt], Missed, Error, turns + 1, Later(clock, t))
      else BumpResult(inc, Later(clock, t), u, Some(attempt), if t.pushed then Fed else Fallback, turns + 1)
  }

  /** `_open`: push, and on success write a fresh row. */
  function OpenResult(row: Option<Incident>, clock: real, t: Turn, u: Turn, turns: nat): Result {
    var attempt := Push(Moment(clock, t), t.pushed && !t.raises, false);
    if t.raises || !t.pushed then
      Result(row, [attempt], Missed, if t.raises then Error else Fallback, turns + 1, Later(clock, t))
    else
      var c := Later(clock, t);
      if u.raises && !u.written then Result(row, [attempt], Missed, Error, turns + 2, Later(c, u))
      else
        var now := Moment(c, u);
        Result(Some(Incident(Some(t.handle), now, now, Some(now), 1, true)), [attempt.(stamped := true)], Started,
               if u.raises then Error else Opened, turns + 2, Later(c, u))
  }

  /** `handle`, for a stateless target: `t`, `u` and `v` are the waits in their order. */
  function Fire(p: Params, row: Option<Incident>, clock: real, available: bool, t: Turn, u: Turn, v: Turn): Result {
    if !available then Result(row, [], Missed, Fallback, 0, clock)
    else
      var c := Later(clock, t);
      if t.raises then Result(row, [], Missed, Error, 1, c)
      else if Reusable(p, row, c) then FeedResult(p, row.value, c, u, v, 1)
      else OpenResult(row, c, u, v, 1)
  }

  function Tallied(tally: Option<Tally>, mark: Mark): Option<Tally> {
    if mark == Started then Some(Tally(1, 0))
    else if tally.None? then None
    else Some(Tally(tally.value.firings + 1, tally.value.missed + if mark == Missed then 1 else 0))
  }

  // ----- its laws -----

  function Gap(p: Params): real {
    if p.feedEvery < p.reuseTtl then p.feedEvery else p.reuseTtl
  }

  /** Once an attempt has been stamped, the next comes no sooner than `gap` later. */
  ghost predicate Apart(pushes: seq<Push>, gap: real) {
    forall i, j | 0 <= i < j < |pushes| && pushes[i].stamped :: pushes[j].at - pushes[i].at >= gap
  }

  /** The row's times: stamped attempts lie before the last push time, which lies before the last event time. */
  ghost predicate RowOk(row: Option<Incident>, pushes: seq<Push>, clock: real) {
    && (forall p <- pushes :: p.at <= clock)
    && (forall p <- pushes :: p.stamped ==>
          row.Some? && row.value.open && row.value.handle.Some? && row.value.lastFedAt.Some? && p.at <= row.value.lastFedAt.value)
    && (row.Some? && row.value.lastFedAt.Some? ==> row.value.lastFedAt.value <= row.value.lastEventAt <= clock)
  }

  /** After an attempt that was not stamped, the row still admits a push. */
  ghost predicate OpenAfterUnstamped(p: Params, row: Option<Incident>, pushes: seq<Push>, clock: real) {
    pushes != [] && !pushes[|pushes| - 1].stamped ==> Admits(p, row, clock)
  }

  ghost predicate PushesOk(p: Params, row: Option<Incident>, pushes: seq<Push>, clock: real) {
    Apart(pushes, Gap(p)) && RowOk(row, pushes, clock) && OpenAfterUnstamped(p, row, pushes, clock)
  }

  /** The count of an incident opened here is its firings less those that left no mark. */
  ghost predicate CountOk(row: Option<Incident>, tally: Option<Tally>) {
    tally.Some? ==>
      row.Some? && tally.value.missed <= tally.value.firings
      && row.value.eventCount == tally.value.firings - tally.value.missed
  }

  lemma AdmitsLater(p: Params, row: Option<Incident>, now: real, later: real)
    requires Admits(p, row, now) && now <= later
    ensures Admits(p, row, later)
  {
  }

  lemma TimeKeepsPushes(p: Params, row: Option<Incident>, pushes: seq<Push>, clock: real, later: real)
    requires PushesOk(p, row, pushes, clock) && clock <= later
    ensures PushesOk(p, row, pushes, later)
  {
  }

  /** An attempt that the row admits comes late enough after every stamped one. */
  lemma AdmittedIsApart(p: Params, row: Option<Incident>, pushes: seq<Push>, now: real, a: Push)
    requires PushesOk(p, row, pushes, now) && Admits(p, row, now) && now <= a.at
    ensures Apart(pushes + [a], Gap(p))
  {
    forall i | 0 <= i < |pushes| && pushes[i].stamped ensures a.at - pushes[i].at >= Gap(p) {
      assert pushes[i] in pushes;
    }
  }

  /** While the gap after a stamped attempt has not passed, the row throttles. */
  lemma StampedThrottles(p: Params, row: Option<Incident>, pushes: seq<Push>, now: real, a: Push)
    requires PushesOk(p, row, pushes, now) && a in pushes && a.stamped && now - a.at < Gap(p)
    ensures !Admits(p, row, now)
  {
  }

  /** A firing attempts to push just when it gets as far as the row and the row admits a push. */
  lemma FiringPushes(p: Params, row: Option<Incident>, clock: real, available: bool, t: Turn, u: Turn, v: Turn)
    ensures var r := Fire(p, row, clock, available, t, u, v);
            && |r.attempts| <= 1
            && (r.attempts != [] <==> available && !t.raises && Admits(p, row, Later(clock, t)))
            && (r.attempts != [] ==> Later(clock, t) <= r.attempts[0].at <= r.clock)
            && (r.d == Throttled ==> r.attempts == [] && r.mark == Counted)
            && (r.d == Opened || r.d == Fed ==> r.attempts != [] && r.attempts[0].sent && r.attempts[0].stamped)
            && clock <= r.clock
  {
  }

  lemma OpeningKeeps(p: Params, row: Option<Incident>, pushes: seq<Push>, clock: real, t: Turn, u: Turn, turns: nat)
    requires PushesOk(p, row, pushes, clock) && !Reusable(p, row, clock)
    ensures var r := OpenResult(row, clock, t, u, turns); PushesOk(p, r.row, pushes + r.attempts, r.clock)
  {
    var r := OpenResult(row, clock, t, u, turns);
    AdmittedIsApart(p, row, pushes, clock, r.attempts[0]);
    AdmitsLater(p, row, clock, r.clock);
  }

  lemma FeedingKeeps(p: Params, inc: Incident, pushes: seq<Push>, clock: real, t: Turn, u: Turn, turns: nat)
    requires PushesOk(p, Some(inc), pushes, clock) && Reusable(p, Some(inc), clock)
    ensures var r := FeedResult(p, inc, clock, t, u, turns); PushesOk(p, r.row, pushes + r.attempts, r.clock)
  {
    var r := FeedResult(p, inc, clock, t, u, turns);
    hide Apart;
    if Recent(p, inc, clock) {
      assert pushes + r.attempts == pushes;
    } else {
      AdmittedIsApart(p, Some(inc), pushes, clock, r.attempts[0]);
      AdmitsLater(p, Some(inc), clock, r.clock);
    }
  }

  /** Every firing keeps the pushes of its key apart. */
  lemma FiringKeeps(p: Params, row: Option<Incident>, pushes: seq<Push>, clock: real,
                    available: bool, t: Turn, u: Turn, v: Turn)
    requires PushesOk(p, row, pushes, clock)
    ensures var r := Fire(p, row, clock, available, t, u, v); PushesOk(p, r.row, pushes + r.attempts, r.clock)
  {
    hide PushesOk, FeedResult, OpenResult;
    TimeKeepsPushes(p, row, pushes, clock, Later(clock, t));
    if !available || t.raises {
      assert pushes + [] == pushes;
    } else if Reusable(p, row, Later(clock, t)) {
      FeedingKeeps(p, row.value, pushes, Later(clock, t), u, v, 1);
    } else {
      OpeningKeeps(p, row, pushes, Later(clock, t), u, v, 1);
    }
  }

  /** Every firing keeps the count of its row. */
  lemma FiringCounts(p: Params, row: Option<Incident>, tally: Option<Tally>, clock: real,
                     available: bool, t: Turn, u: Turn, v: Turn)
    requires CountOk(row, tally)
    ensures var r := Fire(p, row, clock, available, t, u, v); CountOk(r.row, Tallied(tally, r.mark))
  {
  }

  /** Two pushes of one key, closer than any gap, that both went out: the first was not stamped, because writing the
      row raised. */
  lemma UnstampedRepeats(p: Params, handle: string)
    requires 0.0 < Gap(p)
    ensures var done := Turn(0.0, false, true, true, true, handle);
            var lost := Turn(0.0, true, false, true, true, handle);
            var first := Fire(p, None, 0.0, true, done, done, lost);
            var second := Fire(p, first.row, first.clock, true, done, done, done);
            && |first.attempts| == 1 && |second.attempts| == 1 && first.attempts[0].sent && second.attempts[0].sent
            && second.attempts[0].at - first.attempts[0].at < Gap(p)
  {
  }

  // ----- the coordinator -----

  function Get<V>(m: map<string, V>, key: string): Option<V> {
    if key in m then Some(m[key]) else None
  }

  class Coordinator {
    const p: Params
    const script: nat -> Turn
    var turn: nat
    var clock: real
    var incidents: map<string, Incident>
    ghost var pushes: map<string, seq<Push>>
    ghost var tallies: map<string, Tally>

    ghost function Pushes(key: string): seq<Push>
      reads `pushes
    {
      if key in pushes then pushes[key] else []
    }

    ghost predicate KeyOk(key: string)
      reads `incidents, `pushes, `tallies, `clock
    {
      PushesOk(p, Get(incidents, key), Pushes(key), clock) && CountOk(Get(incidents, key), Get(tallies, key))
    }

    ghost predicate Valid()
      reads `incidents, `pushes, `tallies, `clock
    {
      forall key: string :: KeyOk(key)
    }

    /** The rows of earlier runs, whatever they count, were stamped in order. */
    constructor (p: Params, script: nat -> Turn, clock: real, incidents: map<string, Incident>)
      requires forall key <- incidents :: RowOk(Some(incidents[key]), [], clock)
      ensures Valid() && this.incidents == incidents && this.p == p
    {
      this.p, this.script, this.clock, this.incidents := p, script, clock, incidents;
      turn, pushes, tallies := 0, map[], map[];
    }

    /** Stamped pushes of a key are at least the smaller of feed interval and reuse time apart, also from later
        attempts that fail. */
    lemma Spacing(key: string, i: nat, j: nat)
      requires Valid() && i < j < |Pushes(key)| && Pushes(key)[i].stamped
      ensures Pushes(key)[j].at - Pushes(key)[i].at >= Gap(p)
    {
      assert KeyOk(key);
    }

    /** While the gap after the last attempt has not passed, a firing handled now pushes again if and only if that
        attempt was not stamped. */
    lemma RepeatsExactly(key: string, now: real)
      requires Valid() && Pushes(key) != [] && clock <= now
      requires now - Pushes(key)[|Pushes(key)| - 1].at < Gap(p)
      ensures Admits(p, Get(incidents, key), now) <==> !Pushes(key)[|Pushes(key)| - 1].stamped
    {
      var last := Pushes(key)[|Pushes(key)| - 1];
      assert KeyOk(key);
      TimeKeepsPushes(p, Get(incidents, key), Pushes(key), clock, now);
      if last.stamped {
        StampedThrottles(p, Get(incidents, key), Pushes(key), now, last);
      }
    }

    /** The event count is the number of firings since the last opening just when each of them reached the row. */
    lemma CountMeans(key: string)
      requires Valid() && key in tallies
      ensures key in incidents && (incidents[key].eventCount == tallies[key].firings <==> tallies[key].missed == 0)
    {
      assert KeyOk(key);
    }

    /** Time passes until a statement or a push comes back. */
    method Await() returns (t: Turn)
      modifies `turn, `clock
      ensures t == script(old(turn)) && turn == old(turn) + 1 && clock == Later(old(clock), t)
    {
      t := script(turn);
      turn := turn + 1;
      if t.elapsed > 0.0 {
        clock := clock + t.elapsed;
      }
    }

    /** What a method has left of a key, and that it left the others alone. */
    ghost predicate Left(key: string, r: Result, was: map<string, Incident>, turns: nat)
      reads `incidents, `turn, `clock
    {
      && Get(incidents, key) == r.row && clock == r.clock && turn == turns
      && forall o: string | o != key :: Get(incidents, o) == Get(was, o)
    }

    /** `handle`, for a stateless target. */
    method Handle(key: string, available: bool) returns (d: Disposition)
      requires Valid()
      modifies `turn, `clock, `incidents, `pushes, `tallies
      ensures Valid()
      ensures var r := Fire(p, old(Get(incidents, key)), old(clock), available,
                            script(old(turn)), script(old(turn) + 1), script(old(turn) + 2));
              && d == r.d && Left(key, r, old(incidents), old(turn) + r.turns)
              && Pushes(key) == old(Pushes(key)) + r.attempts
              && Get(tallies, key) == Tallied(old(Get(tallies, key)), r.mark)
      ensures forall o: string | o != key :: Get(pushes, o) == old(Get(pushes, o)) && Get(tallies, o) == old(Get(tallies, o))
    {
      hide Fire, PushesOk, CountOk;
      ghost var t, u, v := script(turn), script(turn + 1), script(turn + 2);
      ghost var r := Fire(p, Get(incidents, key), clock, available, t, u, v);
      forall o: string
        ensures PushesOk(p, Get(incidents, o), Pushes(o), clock) && CountOk(Get(incidents, o), Get(tallies, o))
      {
        assert KeyOk(o);
      }
      FiringKeeps(p, Get(incidents, key), Pushes(key), clock, available, t, u, v);
      FiringCounts(p, Get(incidents, key), Get(tallies, key), clock, available, t, u, v);
      FiringPushes(p, Get(incidents, key), clock, available, t, u, v);
      d := Dispatch(key, available);
      Note(key, r, old(incidents), old(clock));
    }

    /** The firing's attempt and mark go into the records. */
    ghost method Note(key: string, r: Result, was: map<string, Incident>, before: real)
      requires forall o: string ::
                 PushesOk(p, Get(was, o), Pushes(o), before) && CountOk(Get(was, o), Get(tallies, o))
      requires PushesOk(p, r.row, Pushes(key) + r.attempts, r.clock) && CountOk(r.row, Tallied(Get(tallies, key), r.mark))
      requires Get(incidents, key) == r.row && clock == r.clock && before <= clock
      requires forall o: string | o != key :: Get(incidents, o) == Get(was, o)
      modifies `pushes, `tallies
      ensures Valid() && Pushes(key) == old(Pushes(key)) + r.attempts
      ensures Get(tallies, key) == Tallied(old(Get(tallies, key)), r.mark)
      ensures forall o: string | o != key :: Get(pushes, o) == old(Get(pushes, o)) && Get(tallies, o) == old(Get(tallies, o))
    {
      hide PushesOk, CountOk;
      var tally := Tallied(Get(tallies, key), r.mark);
      pushes := pushes[key := Pushes(key) + r.attempts];
      if tally.Some? {
        tallies := tallies[key := tally.value];
      }
      forall o: string ensures KeyOk(o) {
        if o != key {
          assert Pushes(o) == old(Pushes(o)) && Get(tallies, o) == old(Get(tallies, o));
          TimeKeepsPushes(p, Get(was, o), Pushes(o), before, clock);
        }
      }
    }

    /** The decision: `handle` up to the records, with its exceptions turned into a disposition. */
    method Dispatch(key: string, available: bool) returns (d: Disposition)
      modifies `turn, `clock, `incidents
      ensures var r := Fire(p, old(Get(incidents, key)), old(clock), available,
                            script(old(turn)), script(old(turn) + 1), script(old(turn) + 2));
              d == r.d && Left(key, r, old(incidents), old(turn) + r.turns)
    {
      if !available {
        return Fallback;
      }
      var t := Await();
      if t.raises {
        return Error;
      }
      var inc := Get(incidents, key);
      if inc.Some? && inc.value.open && inc.value.handle.Some? && clock - inc.value.lastEventAt < p.reuseTtl {
        d := FeedStateless(key, inc.value, 1);
      } else {
        d := Open(key, 1);
      }
    }

    /** `_open`. */
    method Open(key: string, ghost turns: nat) returns (d: Disposition)
      requires turns <= turn
      modifies `turn, `clock, `incidents
      ensures var r := OpenResult(old(Get(incidents, key)), old(clock), script(old(turn)), script(old(turn) + 1), turns);
              d == r.d && Left(key, r, old(incidents), old(turn) - turns + r.turns)
    {
      var push := Await();
      if push.raises || !push.pushed {
        return if push.raises then Error else Fallback;
      }
      var before := clock;
      var t := Await();
      if t.raises && !t.written {
        return Error;
      }
      var now := if t.early then before else clock;
      incidents := incidents[key := Incident(Some(push.handle), now, now, Some(now), 1, true)];
      d := if t.raises then Error else Opened;
    }

    /** `_feed_stateless`. */
    method FeedStateless(key: string, inc: Incident, ghost turns: nat) returns (d: Disposition)
      requires Get(incidents, key) == Some(inc) && turns <= turn
      modifies `turn, `clock, `incidents
      ensures var r := FeedResult(p, inc, old(clock), script(old(turn)), script(old(turn) + 1), turns);
              d == r.d && Left(key, r, old(incidents), old(turn) - turns + r.turns)
    {
      var lastFed := if inc.lastFedAt.Some? then inc.lastFedAt.value else 0.0;
      if clock - lastFed < p.feedEvery {
        var ok := Bump(key, inc, false);
        return if ok then Throttled else Error;
      }
      var push := Await();
      if push.raises {
        return Error;
      }
      var ok := Bump(key, inc, true);
      d := if !ok then Error else if push.pushed then Fed else Fallback;
    }

    /** `_bump_incident`. */
    method Bump(key: string, inc: Incident, fed: bool) returns (ok: bool)
      requires Get(incidents, key) == Some(inc)
      modifies `turn, `clock, `incidents
      ensures var t := script(old(turn));
              && ok == !t.raises && turn == old(turn) + 1 && clock == Later(old(clock), t)
              && incidents == if t.raises && !t.written then old(incidents)
                              else old(incidents)[key := Bumped(inc, fed, Moment(old(clock), t))]
    {
      var before := clock;
      var t := Await();
      ok := !t.raises;
      if ok || t.written {
        var now := if t.early then before else clock;
        var row := inc.(lastEventAt := now, eventCount := inc.eventCount + 1);
        if fed {
          row := row.(lastFedAt := Some(now));
        }
        incidents := incidents[key := row];
      }
    }
  }
}
