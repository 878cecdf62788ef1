/**
 The scheduler program itself: the tick, its loops and the delivery of one group, statement by statement.
 Everything outside the program is one arbitrary script: between any two statements it lets the world,
 the collectors and, once the session is lost, other schedulers move, and it answers the calls.
 Whatever the script says, what the program does is a run of the protocol.
 */
module QueueScheduler {
  import opened Options
  import opened QueueTables
  import opened QueueProtocol
  import opened QueueSlots
  import opened QueueOutbox
  import opened QueueMessages
  import opened QueueRuns

  /** One wait: the moves of everyone else, and what the call, if there was one, comes back with. */
  datatype Turn = Turn(moves: seq<Step>, raises: bool, answered: bool, reply: Reply, owner: string, handle: Handle)

  /** Why a delivery was put off. */
  datatype Why =
    | CallRaised
    | RowLocked
    | IdentityChanged
    | NoCapacity
    | NotCreated
    | NotConfirmed
    | OtherProject
    | Batching
    | SendRefused

  /** How the delivery of one group ended. */
  datatype Result = Done | Deferred(why: Why) | SessionLost

  /** How a tick ended. */
  datatype TickEnd = LockTaken | Lost | Failed | Completed

  /** Where a delivery started: its batch, and the deliveries, steps and waits before it. */
  datatype Start = Start(b: Batch, log: seq<Delivered>, steps: seq<Step>, turn: nat)

  /** How many of these texts go into one message. */
  method Pack(texts: seq<string>) returns (n: nat)
    requires texts != []
    ensures Fills(texts, n)
  {
    n := 0;
    var size := 0;
    while n < |texts|
      invariant n <= |texts| && size == TotalLength(texts[..n])
      invariant n > 1 ==> size <= MAX_MESSAGE
    {
      if n > 0 && size + |texts[n]| > MAX_MESSAGE {
        assert texts[..n + 1][..n] == texts[..n];
        return;
      }
      assert texts[..n + 1][..n] == texts[..n];
      size := size + |texts[n]|;
      n := n + 1;
    }
  }

  /** The first rows of a group, by number. */
  method SelectHead(pending: Outbox, nextId: nat, key: GroupKey, n: nat) returns (ids: seq<nat>)
    requires forall i <- pending :: i < nextId
    ensures IsHead(pending, key, n, ids)
  {
    ids := [];
    var i := 0;
    while i < nextId && |ids| < n
      invariant |ids| <= n && Ascending(ids)
      invariant forall x <- ids :: x < i && x in pending && pending[x].key == key
      invariant forall x <- pending :: x < i && pending[x].key == key ==> x in ids
    {
      if i in pending && pending[i].key == key {
        ghost var before := ids;
        ids := ids + [i];
        assert i == ids[|ids| - 1] && forall x <- before :: x in ids && x < i;
        assert forall k | 0 <= k < |before| :: before[k] in before;
      }
      i := i + 1;
    }
  }

  /** `_find_workstream`: the latest matching row, if any. */
  method FindWorkstream(ws: Workstreams, wanted: Criteria) returns (found: Option<Handle>)
    ensures found.None? ==> NoneMatches(ws, wanted)
    ensures found.Some? ==> IsLatestMatch(ws, wanted, found.value)
  {
    found := None;
    var rest := ws.Keys;
    while rest != {}
      invariant rest <= ws.Keys
      invariant found.None? ==> forall h <- ws.Keys - rest :: !Matches(ws[h], wanted)
      invariant found.Some? ==>
                  && found.value in ws && Matches(ws[found.value], wanted)
                  && forall h <- ws.Keys - rest :: Matches(ws[h], wanted) ==> ws[h].openedAt <= ws[found.value].openedAt
    {
      var h :| h in rest;
      rest := rest - {h};
      if Matches(ws[h], wanted) && (found.None? || ws[found.value].openedAt < ws[h].openedAt) {
        found := Some(h);
      }
    }
  }

  predicate GroupDue(pending: Outbox, key: GroupKey, now: Time) {
    exists i <- pending :: pending[i].key == key && pending[i].availableAt <= now
  }

  predicate IsFirst(pending: Outbox, key: GroupKey, i: nat) {
    i in pending && pending[i].key == key && forall m <- pending :: pending[m].key == key ==> i <= m
  }

  ghost predicate Distinct(keys: seq<GroupKey>) {
    forall j, k :: 0 <= j < k < |keys| ==> keys[j] != keys[k]
  }

  /** The groups with a due row, in the order of their first rows, at most `limit` of them. */
  ghost predicate IsDueList(pending: Outbox, now: Time, limit: nat, keys: seq<GroupKey>) {
    && |keys| <= limit && Distinct(keys) && (forall k <- keys :: GroupDue(pending, k, now))
    && (|keys| < limit ==> forall i <- pending :: GroupDue(pending, pending[i].key, now) ==> pending[i].key in keys)
    && forall j, k, a: nat, b: nat | 0 <= j < k < |keys| && IsFirst(pending, keys[j], a) && IsFirst(pending, keys[k], b) :: a < b
  }

  /** SELECT ... GROUP BY ... HAVING ... ORDER BY ... LIMIT. */
  method DueGroups(pending: Outbox, nextId: nat, now: Time, limit: nat) returns (keys: seq<GroupKey>)
    requires forall i <- pending :: i < nextId
    ensures IsDueList(pending, now, limit, keys)
  {
    keys := [];
    var i := 0;
    while i < nextId && |keys| < limit
      invariant |keys| <= limit && Distinct(keys)
      invariant forall k <- keys :: GroupDue(pending, k, now)
      invariant forall x <- pending :: x < i && GroupDue(pending, pending[x].key, now) ==> pending[x].key in keys
      invariant forall k, a: nat | 0 <= k < |keys| && IsFirst(pending, keys[k], a) :: a < i
      invariant forall j, k, a: nat, b: nat | 0 <= j < k < |keys| && IsFirst(pending, keys[j], a) && IsFirst(pending, keys[k], b) ::
                  a < b
    {
      if i in pending && pending[i].key !in keys && GroupDue(pending, pending[i].key, now) {
        ghost var before := keys;
        keys := keys + [pending[i].key];
        assert forall k <- before :: k in keys;
        assert IsFirst(pending, pending[i].key, i);
      }
      i := i + 1;
    }
  }

  /** Steps other parties may take between two statements of scheduler `me`. */
  predicate Foreign(me: nat, s: State, step: Step) {
    match step
    case World(_) => true
    case Collector(_) => true
    case Tick(Acquire(p)) => p != me
    case Tick(Release) => true
    case _ => s.lock != Some(me)
  }

  /** While a session lasts, others add outbox rows but touch nothing else that its scheduler reads. */
  ghost predicate Undisturbed(s: State, t: State) {
    && t.ws == s.ws && t.phase == s.phase && t.log == s.log && s.now <= t.now
    && (forall i <- s.pending :: i in t.pending && t.pending[i] == s.pending[i])
  }

  ghost predicate SameButOne(ws: Workstreams, ws': Workstreams, h: Handle) {
    ws'.Keys == ws.Keys && forall o <- ws :: o != h ==> ws'[o] == ws[o]
  }

  lemma OthersWorld(s: State, step: WorldStep)
    requires WorldEnabled(s, step)
    ensures WorldApply(s, step).lock == s.lock && Undisturbed(s, WorldApply(s, step))
  {
  }

  lemma OthersCollector(s: State, step: CollectorStep)
    requires OutboxOk(s) && CollectorEnabled(s, step)
    ensures CollectorApply(s, step).lock == s.lock && Undisturbed(s, CollectorApply(s, step))
  {
  }

  lemma OthersTick(cfg: Config, me: nat, s: State, step: TickStep)
    requires TickEnabled(cfg, s, step) && Foreign(me, s, Tick(step))
    ensures TickApply(cfg, s, step).lock != Some(me)
  {
  }

  lemma OthersDeliver(cfg: Config, s: State)
    ensures forall x: AdmissionStep :: AdmissionEnabled(cfg, s, x) ==> AdmissionApply(cfg, s, x).lock == s.lock
    ensures forall x: MessageStep :: MessageEnabled(cfg, s, x) ==> MessageApply(cfg, s, x).lock == s.lock
  {
  }

  lemma ForeignStep(cfg: Config, me: nat, s: State, step: Step)
    requires OutboxOk(s) && Enabled(cfg, s, step) && Foreign(me, s, step)
    ensures var t := Apply(cfg, s, step); t.lock == Some(me) ==> s.lock == Some(me) && Undisturbed(s, t)
  {
    match step {
      case World(x) => OthersWorld(s, x);
      case Collector(x) => OthersCollector(s, x);
      case Tick(x) => OthersTick(cfg, me, s, x);
      case Admission(x) => OthersDeliver(cfg, s);
      case Message(x) => OthersDeliver(cfg, s);
      case Defer(_, _) =>
    }
  }

  /** What the scheduler may rely on in the state it is in. */
  lemma ReliableState(cfg: Config, tr: seq<State>, steps: seq<Step>)
    requires IsRun(cfg, tr, steps)
    ensures PhaseOk(tr[|steps|]) && OutboxOk(tr[|steps|]) && AcceptedOk(tr[|steps|].feeds, tr[|steps|].log, tr[|steps|].phase)
  {
    InvariantAlways(cfg, tr, steps, |steps|);
  }

  /** How long a deferral lasts; one that batches lasts what remains of the feed interval. */
  function Pause(cfg: Config, why: Why, s: State): Time {
    match why
    case NoCapacity => cfg.pollInterval
    case IdentityChanged => 300 * SECOND
    case OtherProject => 300 * SECOND
    case Batching =>
      if s.phase.Confirmed? && s.phase.w.lastSentAt.Some? then cfg.feedInterval - (s.now - s.phase.w.lastSentAt.value)
      else 0
    case _ => 30 * SECOND
  }

  /** The oldest row of a deferred batch is not due any more. */
  ghost predicate PutOff(pending: Outbox, ids: seq<nat>, now: Time) {
    ids != [] && (ids[0] in pending ==> pending[ids[0]].availableAt > now)
  }

  ghost predicate PutOffBy(pending: Outbox, ids: seq<nat>, now: Time, delay: Time) {
    ids != [] && delay > 0 && (ids[0] in pending ==> pending[ids[0]].availableAt == now + delay)
  }

  /** The call raised, its answer was lost, or the insertion clashed. */
  predicate Trouble(t: Turn, s: State) {
    t.raises || (!t.answered && (s.phase.Creating? || s.phase.Sending?)) || (t.handle in s.ws && s.phase.Admitted?)
  }

  /** What a delivery may put off. */
  lemma SentIsHead(cfg: Config, tr: seq<State>, steps: seq<Step>)
    requires IsRun(cfg, tr, steps) && tr[|steps|].phase.Delivering()
    ensures var phase := tr[|steps|].phase;
            && phase.b.ids != [] && Deferrable(phase, phase.b.ids)
            && (phase.Sending? ==> 0 < phase.n <= |phase.b.ids| && Deferrable(phase, phase.b.ids[..phase.n]))
  {
    ReliableState(cfg, tr, steps);
  }

  lemma DeferringPutsOff(pending: Outbox, all: seq<nat>, ids: seq<nat>, now: Time, delay: Time)
    requires [] < ids <= all && delay > 0
    ensures PutOffBy(DeferUntil(pending, ids, now + delay), all, now, delay)
  {
    assert ids[0] == all[0] && ids[0] in ids;
  }

  /** What is the case where a delivery is put off. */
  ghost predicate HasReason(cfg: Config, script: nat -> Turn, turn: nat, s: State, why: Why, c: Start) {
    match why
    case CallRaised => c.turn < turn && Trouble(script(turn - 1), s)
    case RowLocked => s.phase.Inspected? && !Unlocked(s, s.phase.h)
    case IdentityChanged => s.phase.Read? && !s.phase.b.IdentityHolds()
    case NoCapacity =>
      && s.phase.Read? && NoneMatches(s.ws, s.phase.b.Wanted())
      && (|Unclosed(s.ws)| >= cfg.maxActive || |OpenedAfter(s.ws, s.now - MINUTE)| >= cfg.rateCeiling)
    case NotCreated =>
      s.phase.Failing? || (s.phase.Creating? && s.phase.c < |s.creates| && s.creates[s.phase.c].outcome != Accepted)
    case NotConfirmed => s.phase.Confirmed? && !s.phase.reply.Up()
    case OtherProject => s.phase.Confirmed? && s.phase.reply.Up() && s.phase.reply.project != s.phase.b.head.project
    case Batching =>
      && s.phase.Confirmed? && s.phase.w.lastSentAt.Some?
      && s.now - s.phase.w.lastSentAt.value < cfg.feedInterval
    case SendRefused => s.phase.Sending? && s.phase.f < |s.feeds| && s.feeds[s.phase.f].outcome != Accepted
  }

  lemma PutOffIsPast(pending: Outbox, ids: seq<nat>, now: Time, delay: Time)
    requires PutOffBy(pending, ids, now, delay)
    ensures PutOff(pending, ids, now)
  {
  }

  lemma ReasonPauses(cfg: Config, script: nat -> Turn, turn: nat, s: State, why: Why, c: Start)
    requires cfg.Valid() && HasReason(cfg, script, turn, s, why, c)
    ensures Pause(cfg, why, s) > 0
  {
  }

  /** A message that was not accepted puts off the rows sent; anything else, also an exception, all rows read. */
  predicate OnlySent(script: nat -> Turn, turn: nat, s: State) {
    s.phase.Sending? && s.phase.n <= |s.phase.b.ids| && turn > 0 && !script(turn - 1).raises
  }

  /** The latest step put the delivery's rows off, and in the state before it there was this reason to. */
  ghost predicate WasDeferred(cfg: Config, script: nat -> Turn, turn: nat, tr: seq<State>, steps: seq<Step>, why: Why, c: Start) {
    && 0 < |steps| < |tr| && steps[|steps| - 1].Defer?
    && var s, t := tr[|steps| - 1], tr[|steps|];
       && s.phase.Delivering() && s.phase.b == c.b && HasReason(cfg, script, turn, s, why, c)
       && steps[|steps| - 1].ids == (if OnlySent(script, turn, s) then c.b.ids[..s.phase.n] else c.b.ids)
       && PutOffBy(t.pending, c.b.ids, t.now, Pause(cfg, why, s))
  }

  lemma AdoptEffect(cfg: Config, s: State, h: Handle)
    requires s.lock.Some? && s.phase.Read? && s.phase.b.IdentityHolds() && IsLatestMatch(s.ws, s.phase.b.Wanted(), h)
    ensures Enabled(cfg, s, Admission(Adopt(h)))
    ensures Apply(cfg, s, Admission(Adopt(h))) == s.(phase := Found(s.phase.b, h, s.ws[h]))
  {
  }

  lemma AdmitEffect(cfg: Config, s: State)
    requires s.lock.Some? && s.phase.Read? && s.phase.b.IdentityHolds() && NoneMatches(s.ws, s.phase.b.Wanted())
    requires |Unclosed(s.ws)| < cfg.maxActive && |OpenedAfter(s.ws, s.now - MINUTE)| < cfg.rateCeiling
    ensures Enabled(cfg, s, Admission(Admit))
    ensures Apply(cfg, s, Admission(Admit)) == s.(phase := Admitted(s.phase.b))
  {
  }

  lemma ReserveEffect(cfg: Config, s: State, h: Handle)
    requires s.lock.Some? && s.phase.Admitted? && h !in s.ws
    ensures Enabled(cfg, s, Admission(Reserve(h)))
    ensures var t := Apply(cfg, s, Admission(Reserve(h)));
            t.lock == s.lock && t.log == s.log && t.phase == Found(s.phase.b, h, NewRow(s.phase.b, s.now))
  {
  }

  /** One more delivery is recorded: a beginning of the batch. */
  ghost predicate Recorded(log: seq<Delivered>, log': seq<Delivered>, b: Batch) {
    exists d :: log' == log + [d] && d.key == b.key && [] < d.ids <= b.ids
  }

  /** The batch that reading these rows yields. */
  ghost function BatchOf(s: State, ids: seq<nat>): Batch
    requires ids != [] && ids[0] in s.pending && (s.pending[ids[0]].key.rule, s.pending[ids[0]].key.target) in s.rules
  {
    var row := s.pending[ids[0]];
    Batch(row.key, ids, s.rules[(row.key.rule, row.key.target)], row.payload, |s.committed|)
  }

  /** The last creation for this handle was accepted. */
  ghost predicate Created(s: State, h: Handle) {
    exists c :: 0 <= c < |s.creates| && s.creates[c] == Create(h, Accepted)
  }

  lemma ReadEffect(cfg: Config, s: State, ids: seq<nat>)
    requires TickEnabled(cfg, s, ReadRows(ids))
    ensures var t := Apply(cfg, s, Tick(ReadRows(ids)));
            t.lock == s.lock && t.log == s.log && t.phase == Read(BatchOf(s, ids))
  {
  }

  lemma ClaimEffect(cfg: Config, s: State)
    requires s.lock.Some? && s.phase.Found?
    ensures Enabled(cfg, s, Admission(Claim))
    ensures var t := Apply(cfg, s, Admission(Claim));
            t.lock == s.lock && t.log == s.log && t.phase == Claimed(s.phase.b, s.phase.h, s.phase.w)
  {
  }

  lemma AttemptEffect(cfg: Config, s: State)
    requires PhaseOk(s) && s.lock.Some? && s.phase.Claimed? && s.phase.w.status == Opening && !s.phase.w.attempted
    ensures Enabled(cfg, s, Admission(Attempt))
    ensures var t := Apply(cfg, s, Admission(Attempt));
            t.lock == s.lock && t.log == s.log && t.phase == Creating(s.phase.b, s.phase.h, s.phase.w, |s.creates|)
  {
  }

  lemma CreateReliable(cfg: Config, tr: seq<State>, steps: seq<Step>)
    requires IsRun(cfg, tr, steps) && tr[|steps|].phase.Creating? && tr[|steps|].lock.Some?
    ensures var s := tr[|steps|];
            && s.phase.c + 1 == |s.creates|
            && (s.creates[s.phase.c].outcome == Accepted ==>
                  && Enabled(cfg, s, Admission(CreateOk))
                  && var t := Apply(cfg, s, Admission(CreateOk));
                     t.lock == s.lock && t.log == s.log && Created(t, s.phase.h)
                     && t.phase == Claimed(s.phase.b, s.phase.h, s.phase.w.(status := Open, attempted := true)))
            && (s.creates[s.phase.c].outcome == Refused ==>
                  && Enabled(cfg, s, Admission(CreateRefused))
                  && var t := Apply(cfg, s, Admission(CreateRefused));
                     t.lock == s.lock && t.log == s.log && t.creates == s.creates && t.phase == Failing(s.phase.b))
  {
    ReliableState(cfg, tr, steps);
    var s := tr[|steps|];
    assert s.creates[s.phase.c].outcome == Accepted ==> s.creates[s.phase.c] == Create(s.phase.h, Accepted);
  }

  lemma InspectEffect(cfg: Config, s: State, reply: Reply)
    requires s.lock.Some? && s.phase.Claimed? && !(s.phase.w.status == Opening && !s.phase.w.attempted)
    requires Truthful(s.agents, s.phase.h, reply)
    ensures Enabled(cfg, s, Message(Inspect(reply)))
    ensures Apply(cfg, s, Message(Inspect(reply))) == s.(phase := Inspected(s.phase.b, s.phase.h, s.phase.w, reply))
  {
  }

  lemma InspectWriteEffect(cfg: Config, s: State, owner: string)
    requires PhaseOk(s) && s.lock.Some? && s.phase.Inspected? && Unlocked(s, s.phase.h)
    requires s.phase.w.owner != "" ==> owner == s.phase.w.owner
    ensures Enabled(cfg, s, Message(InspectWrite(owner)))
    ensures var t := Apply(cfg, s, Message(InspectWrite(owner)));
            && t.lock == s.lock && t.log == s.log && t.now == s.now
            && t.phase == Confirmed(s.phase.b, s.phase.h, s.phase.w, s.phase.reply)
  {
  }

  lemma SendEffect(cfg: Config, s: State, n: nat)
    requires s.lock.Some? && s.phase.Confirmed? && MaySend(cfg, s.phase.b, s.phase.w, s.phase.reply, s.now)
    requires PacksTo(s.pending, s.phase.b.ids, n)
    ensures Enabled(cfg, s, Message(Send(n)))
    ensures var t := Apply(cfg, s, Message(Send(n)));
            && t.lock == s.lock && t.log == s.log
            && t.phase == Sending(s.phase.b, s.phase.h, s.phase.w, n, |s.feeds|)
  {
  }

  lemma LockEffects(cfg: Config, s: State)
    ensures s.lock.None? ==>
              && forall p: nat :: Enabled(cfg, s, Tick(Acquire(p)))
                                  && Apply(cfg, s, Tick(Acquire(p))) == s.(lock := Some(p), phase := Ready)
    ensures s.lock.Some? ==>
              Enabled(cfg, s, Tick(Release)) && Apply(cfg, s, Tick(Release)) == s.(lock := None, phase := Ready)
    ensures s.lock.Some? && s.phase.Ready? ==>
              && Enabled(cfg, s, Tick(Cancel))
              && var t := Apply(cfg, s, Tick(Cancel)); t.lock == s.lock && t.phase == s.phase
  {
  }

  lemma SendReliable(cfg: Config, tr: seq<State>, steps: seq<Step>)
    requires IsRun(cfg, tr, steps) && tr[|steps|].phase.Sending? && tr[|steps|].lock.Some?
    ensures var s := tr[|steps|];
            && s.phase.f < |s.feeds| && s.feeds[s.phase.f].key == s.phase.b.key
            && (s.feeds[s.phase.f].outcome == Accepted ==>
                  && Enabled(cfg, s, Message(Deliver))
                  && var t := Apply(cfg, s, Message(Deliver));
                     t.lock == s.lock && t.phase == Ready && Recorded(s.log, t.log, s.phase.b))
  {
    ReliableState(cfg, tr, steps);
    var s := tr[|steps|];
    var d := Delivered(s.phase.h, s.phase.b.key, s.phase.b.ids[..s.phase.n], s.phase.b.seen, s.now, s.phase.f);
    assert s.feeds[s.phase.f].outcome == Accepted ==> Apply(cfg, s, Message(Deliver)).log == s.log + [d];
  }

  /** What is left of a poll: row `h`, and only that, has been checked. */
  ghost predicate PolledOnly(s: State, t: State, h: Handle) {
    && t.lock == s.lock && t.phase == Ready && t.log == s.log && t.now == s.now
    && SameButOne(s.ws, t.ws, h) && h in t.ws && t.ws[h].checkedAt == Some(s.now)
  }

  lemma PollWriteEffect(cfg: Config, s: State, owner: string)
    requires PhaseOk(s) && s.lock.Some? && s.phase.Polled? && Unlocked(s, s.phase.h)
    requires s.phase.w.owner != "" ==> owner == s.phase.w.owner
    ensures TickEnabled(cfg, s, PollWrite(owner)) && PolledOnly(s, TickApply(cfg, s, PollWrite(owner)), s.phase.h)
  {
  }

  lemma PollFailEffect(cfg: Config, s: State)
    requires PhaseOk(s) && s.lock.Some? && s.phase.Polled?
    ensures TickEnabled(cfg, s, PollFail) && PolledOnly(s, TickApply(cfg, s, PollFail), s.phase.h)
  {
  }

  /** What the query of the polls selects. */
  predicate Unchecked(w: Workstream, now: Time) {
    w.status != Closed && (w.checkedAt.None? || w.checkedAt.value < now - 30 * SECOND)
  }

  /** The polls pass over a row whose agent was never asked for. */
  predicate Polls(w: Workstream) {
    w.status != Opening || w.attempted
  }

  /** ORDER BY checked_at NULLS FIRST. */
  predicate NoLater(v: Workstream, w: Workstream) {
    v.checkedAt.None? || (w.checkedAt.Some? && v.checkedAt.value <= w.checkedAt.value)
  }

  method LongestUnchecked(rows: Workstreams, rest: set<Handle>) returns (h: Handle)
    requires rest != {} && rest <= rows.Keys
    ensures h in rest && forall o <- rest :: NoLater(rows[h], rows[o])
  {
    h :| h in rest;
    var left := rest - {h};
    while left != {}
      invariant left <= rest && h in rest && forall o <- rest - left :: NoLater(rows[h], rows[o])
    {
      var o :| o in left;
      left := left - {o};
      if !NoLater(rows[h], rows[o]) {
        h := o;
      }
    }
  }

  /** The polled rows were stale, and none that was not polled had waited longer. */
  ghost predicate Selected(rows: Workstreams, now: Time, polled: set<Handle>) {
    && (forall h <- polled :: h in rows && Unchecked(rows[h], now))
    && forall h, o | h in polled && o in rows && o !in polled && Unchecked(rows[o], now) :: NoLater(rows[h], rows[o])
  }

  /** All stale rows, or 64 of them. */
  ghost predicate SelectedAll(rows: Workstreams, now: Time, polled: set<Handle>) {
    |polled| >= 64 || forall h <- rows :: Unchecked(rows[h], now) ==> h in polled
  }

  ghost predicate Selecting(rows: Workstreams, now: Time, polled: set<Handle>, rest: set<Handle>) {
    Selected(rows, now, polled) && rest <= rows.Keys && polled !! rest
    && forall h <- rows :: Unchecked(rows[h], now) <==> h in polled || h in rest
  }

  lemma SelectNone(rows: Workstreams, now: Time, rest: set<Handle>)
    requires rest == set h | h in rows && Unchecked(rows[h], now)
    ensures Selecting(rows, now, {}, rest) && RowsKept(rows, rows, rest) && AllChecked(rows, rows, {} - {}, now)
  {
  }

  lemma SelectFrom(rows: Workstreams, now: Time, polled: set<Handle>, rest: set<Handle>)
    requires Selecting(rows, now, polled, rest)
    ensures rest <= rows.Keys && polled !! rest && forall h <- rest :: Unchecked(rows[h], now)
  {
  }

  lemma SelectNext(rows: Workstreams, now: Time, polled: set<Handle>, rest: set<Handle>, h: Handle)
    requires Selecting(rows, now, polled, rest) && h in rest && forall o <- rest :: NoLater(rows[h], rows[o])
    ensures Selecting(rows, now, polled + {h}, rest - {h})
  {
  }

  lemma SelectDone(rows: Workstreams, now: Time, polled: set<Handle>, rest: set<Handle>)
    requires Selecting(rows, now, polled, rest)
    ensures Selected(rows, now, polled) && (rest == {} || |polled| >= 64 ==> SelectedAll(rows, now, polled))
  {
  }

  predicate CheckedSince(ws: Workstreams, h: Handle, t: Time) {
    h in ws && ws[h].checkedAt.Some? && ws[h].checkedAt.value >= t
  }

  ghost predicate RowsKept(rows: Workstreams, ws: Workstreams, handles: set<Handle>) {
    forall h <- handles :: h in rows && h in ws && ws[h] == rows[h]
  }

  /** Of these rows, every one that the polls do not pass over has been checked since `t`. */
  ghost predicate AllChecked(rows: Workstreams, ws: Workstreams, handles: set<Handle>, t: Time) {
    forall h <- handles :: h in rows && (Polls(rows[h]) ==> CheckedSince(ws, h, t))
  }

  lemma PassedOver(rows: Workstreams, ws: Workstreams, polled: set<Handle>, without: set<Handle>, more: set<Handle>, t: Time)
    requires AllChecked(rows, ws, polled - without, t)
    requires forall h <- more :: h in rows && !Polls(rows[h])
    ensures AllChecked(rows, ws, polled + more - without, t)
  {
  }

  lemma PolledNow(ws: Workstreams, h: Handle, t: Time, since: Time, checked: bool)
    requires since <= t && (checked ==> CheckedSince(ws, h, t))
    ensures checked ==> CheckedSince(ws, h, since)
  {
  }

  lemma OneMoreChecked(rows: Workstreams, ws: Workstreams, ws': Workstreams, rest: set<Handle>, polled: set<Handle>,
                       without: set<Handle>, t: Time, h: Handle)
    requires RowsKept(rows, ws, rest) && h in rest && h !in polled && SameButOne(ws, ws', h)
    requires AllChecked(rows, ws, polled - (without - {h}), t)
    requires h !in without ==> CheckedSince(ws', h, t)
    ensures RowsKept(rows, ws', rest - {h}) && AllChecked(rows, ws', polled + {h} - without, t)
  {
    forall o | o in polled + {h} - without ensures o in rows && (Polls(rows[o]) ==> CheckedSince(ws', o, t)) {
      if o != h {
        assert o in polled - (without - {h});
      }
    }
  }

  /** The deliveries recorded since are one for each of the groups `keys`, in that order. */
  ghost predicate Served(log: seq<Delivered>, log': seq<Delivered>, keys: seq<GroupKey>) {
    log <= log' && |log'| == |log| + |keys| && forall i | 0 <= i < |keys| :: log'[|log| + i].key == keys[i]
  }

  /** No group is recorded twice. */
  ghost predicate OnePerGroup(log: seq<Delivered>, log': seq<Delivered>) {
    log <= log' && forall i, j | |log| <= i < j < |log'| :: log'[i].key != log'[j].key
  }

  lemma ServedOne(log: seq<Delivered>, d: Delivered)
    ensures Served(log, log + [d], [d.key])
  {
  }

  lemma ServedMore(log: seq<Delivered>, log': seq<Delivered>, log'': seq<Delivered>, keys: seq<GroupKey>, more: seq<GroupKey>)
    requires Served(log, log', keys) && Served(log', log'', more)
    ensures Served(log, log'', keys + more)
  {
    forall i | 0 <= i < |keys + more| ensures log''[|log| + i].key == (keys + more)[i] {
      if i < |keys| {
        assert log''[|log| + i] == log'[|log| + i];
      } else {
        assert log''[|log'| + (i - |keys|)].key == more[i - |keys|];
      }
    }
  }

  lemma ServedApart(log: seq<Delivered>, log': seq<Delivered>, keys: seq<GroupKey>)
    requires Served(log, log', keys) && Distinct(keys)
    ensures OnePerGroup(log, log')
  {
    forall i, j | |log| <= i < j < |log'| ensures log'[i].key != log'[j].key {
      assert log'[|log| + (i - |log|)].key == keys[i - |log|] && log'[|log| + (j - |log|)].key == keys[j - |log|];
    }
  }

  /** Rows are numbered below the counter. */
  lemma NumbersBelow(cfg: Config, tr: seq<State>, steps: seq<Step>)
    requires IsRun(cfg, tr, steps)
    ensures forall i <- tr[|steps|].pending :: i < tr[|steps|].nextId
  {
    ReliableState(cfg, tr, steps);
  }

  /** The steps determine the states. */
  lemma {:induction false} RunsAgree(cfg: Config, tr: seq<State>, steps: seq<Step>, tr': seq<State>, steps': seq<Step>, k: nat)
    requires IsRun(cfg, tr, steps) && IsRun(cfg, tr', steps') && steps <= steps' && tr[0] == tr'[0] && k <= |steps|
    ensures tr[k] == tr'[k]
  {
    if k > 0 {
      RunsAgree(cfg, tr, steps, tr', steps', k - 1);
      assert steps'[k - 1] == steps[k - 1];
    }
  }

  lemma RunGrows(cfg: Config, tr: seq<State>, steps: seq<Step>, tr': seq<State>, steps': seq<Step>)
    requires IsRun(cfg, tr, steps) && IsRun(cfg, tr', steps') && steps <= steps' && tr[0] == tr'[0]
    ensures tr <= tr' && |tr| == |steps| + 1 && |tr'| == |steps'| + 1
  {
    forall k | 0 <= k < |tr| ensures tr[k] == tr'[k] {
      RunsAgree(cfg, tr, steps, tr', steps', k);
    }
  }

  /** The group was looked at in this state: its delivery began, unless its oldest row was gone or not due or its
      rule was gone. */
  ghost predicate LookedAt(cfg: Config, tr: seq<State>, steps: seq<Step>, k: nat, key: GroupKey)
    requires k < |tr|
  {
    var s := tr[k];
    exists ids ::
      && IsHead(s.pending, key, cfg.batchSize, ids)
      && (ids == [] || s.pending[ids[0]].availableAt > s.now || (key.rule, key.target) !in s.rules
          || (k < |steps| && steps[k] == Tick(ReadRows(ids))))
  }

  lemma LookedNow(cfg: Config, tr: seq<State>, steps: seq<Step>, k: nat, key: GroupKey, ids: seq<nat>)
    requires k < |tr| && IsHead(tr[k].pending, key, cfg.batchSize, ids)
    requires ids == [] || tr[k].pending[ids[0]].availableAt > tr[k].now || (key.rule, key.target) !in tr[k].rules
             || (k < |steps| && steps[k] == Tick(ReadRows(ids)))
    ensures LookedAt(cfg, tr, steps, k, key)
  {
  }

  lemma TouredNow(cfg: Config, tr: seq<State>, steps: seq<Step>, from: nat, keys: seq<GroupKey>)
    requires from < |tr| && IsDueList(tr[from].pending, tr[from].now, 256, keys)
    requires forall key <- keys :: Visited(cfg, tr, steps, from, key)
    ensures Toured(cfg, tr, steps, from)
  {
  }

  ghost predicate Visited(cfg: Config, tr: seq<State>, steps: seq<Step>, from: nat, key: GroupKey) {
    exists k: nat :: from <= k < |tr| && LookedAt(cfg, tr, steps, k, key)
  }

  lemma VisitedStays(cfg: Config, tr: seq<State>, steps: seq<Step>, tr': seq<State>, steps': seq<Step>,
                     from: nat, since: nat, key: GroupKey)
    requires Visited(cfg, tr, steps, from, key) && tr <= tr' && steps <= steps' && since <= from
    ensures Visited(cfg, tr', steps', since, key)
  {
    var k: nat :| from <= k < |tr| && LookedAt(cfg, tr, steps, k, key);
    assert tr'[k] == tr[k] && (k < |steps| ==> steps'[k] == steps[k]);
    assert LookedAt(cfg, tr', steps', k, key);
  }

  /** Every group that was due at this point was looked at afterwards, unless there were too many. */
  ghost predicate Toured(cfg: Config, tr: seq<State>, steps: seq<Step>, from: nat) {
    && from < |tr|
    && exists keys ::
         && IsDueList(tr[from].pending, tr[from].now, 256, keys)
         && forall key <- keys :: Visited(cfg, tr, steps, from, key)
  }

  lemma TouredStays(cfg: Config, tr: seq<State>, steps: seq<Step>, tr': seq<State>, steps': seq<Step>, from: nat)
    requires Toured(cfg, tr, steps, from) && tr <= tr' && steps <= steps'
    ensures Toured(cfg, tr', steps', from)
  {
    hide IsDueList, Visited;
    var keys :| IsDueList(tr[from].pending, tr[from].now, 256, keys)
                && forall key <- keys :: Visited(cfg, tr, steps, from, key);
    forall key | key in keys ensures Visited(cfg, tr', steps', from, key) {
      VisitedStays(cfg, tr, steps, tr', steps', from, from, key);
    }
  }

  /** Between two states all stale rows were checked, or the 64 longest unchecked; those `without` a dispatcher aside. */
  ghost predicate PolledBetween(s: State, t: State, without: set<Handle>) {
    exists polled ::
      Selected(s.ws, s.now, polled) && SelectedAll(s.ws, s.now, polled) && AllChecked(s.ws, t.ws, polled - without, s.now)
  }

  /** The checks and the clamping of the constructor; None where it raises. */
  function Configured(maxActive: int, feedInterval: Time, pollInterval: Time, rateCeiling: int, batchSize: int): (r: Option<Config>)
    ensures r.Some? ==> r.value.Valid()
    ensures r.None? <==> !(1 <= maxActive <= 4)
  {
    if !(1 <= maxActive <= 4) then None
    else
      Some(Config(maxActive, rateCeiling, if feedInterval < 0 then 0 else feedInterval,
                  if pollInterval < SECOND then SECOND else pollInterval,
                  if batchSize < 1 then 1 else if batchSize > 100 then 100 else batchSize))
  }

  class AgentQueue {
    const cfg: Config
    const session: nat
    const script: nat -> Turn
    var turn: nat
    var db: State
    ghost const origin: State
    ghost var trace: seq<State>
    ghost var steps: seq<Step>

    /** A scheduler that starts at any point of a run, without the lock. */
    constructor (cfg: Config, session: nat, script: nat -> Turn, db: State, ghost trace: seq<State>, ghost steps: seq<Step>)
      requires IsRun(cfg, trace, steps) && db == trace[|steps|] && db.lock != Some(session)
      ensures Valid() && !Holding() && this.cfg == cfg && this.db == db
    {
      this.cfg, this.session, this.script, this.turn := cfg, session, script, 0;
      this.db, this.origin, this.trace, this.steps := db, trace[0], trace, steps;
    }

    ghost predicate Valid()
      reads this
    {
      IsRun(cfg, trace, steps) && db == trace[|steps|] && trace[0] == origin
    }

    predicate Holding()
      reads this
    {
      db.lock == Some(session)
    }

    /** One statement or one answer received. */
    method Execute(step: Step)
      requires Valid() && Enabled(cfg, db, step)
      modifies `db, `trace, `steps
      ensures Valid() && db == Apply(cfg, old(db), step) && steps == old(steps) + [step]
    {
      ExtendRun(cfg, trace, steps, step);
      db := Apply(cfg, db, step);
      trace := trace + [db];
      steps := steps + [step];
    }

    /** Everyone else moves; the session may be gone afterwards. */
    method Await() returns (t: Turn)
      requires Valid()
      modifies this
      ensures Valid() && t == script(old(turn)) && turn == old(turn) + 1 && old(steps) <= steps
      ensures Holding() ==> old(Holding()) && Undisturbed(old(db), db)
    {
      t := script(turn);
      turn := turn + 1;
      for i := 0 to |t.moves|
        invariant Valid() && old(steps) <= steps
        invariant Holding() ==> old(Holding()) && Undisturbed(old(db), db)
        modifies `db, `trace, `steps
      {
        if Foreign(session, db, t.moves[i]) && Enabled(cfg, db, t.moves[i]) {
          ReliableState(cfg, trace, steps);
          ForeignStep(cfg, session, db, t.moves[i]);
          Execute(t.moves[i]);
        }
      }
    }

    /** `_defer`. */
    method Postpone(ids: seq<nat>, delay: Time)
      requires Valid() && Holding() && db.phase.Delivering() && Deferrable(db.phase, ids) && delay > 0
      modifies `db, `trace, `steps
      ensures Valid() && steps == old(steps) + [Defer(ids, old(db.now) + delay)]
      ensures db == old(db).(pending := DeferUntil(old(db.pending), ids, db.now + delay), phase := Ready)
      ensures |trace| == |steps| + 1 && trace[|steps| - 1] == old(db)
    {
      hide IsRun;
      RunGrows(cfg, trace, steps, trace, steps);
      var until := db.now + delay;
      Execute(Defer(ids, until));
      RunGrows(cfg, old(trace), old(steps), trace, steps);
    }

    // ----- polls -----

    /** One poll of the tick: `_inspect` on a row not checked lately. */
    method PollOne(h: Handle, w: Workstream) returns (checked: bool)
      requires Valid() && Holding() && db.phase == Ready
      requires h in db.ws && db.ws[h] == w && Due(w, db.now)
      modifies this
      ensures Valid() && old(steps) <= steps && old(turn) < turn
      ensures Holding() ==> db.phase == Ready && db.log == old(db.log) && SameButOne(old(db.ws), db.ws, h)
      ensures Holding() ==> old(db.now) <= db.now && (checked ==> CheckedSince(db.ws, h, old(db.now)))
      ensures Holding() && !checked ==> !script(old(turn)).answered
    {
      hide IsRun;
      var t := Await();
      if !Holding() || !t.answered {
        return false;
      }
      Execute(Step.Tick(Poll(h, if Truthful(db.agents, h, t.reply) then t.reply else Unknown)));
      t := Await();
      if Holding() {
        WritePoll(t);
      }
      checked := true;
    }

    method WritePoll(t: Turn)
      requires Valid() && Holding() && db.phase.Polled?
      modifies `db, `trace, `steps
      ensures Valid() && Holding() && db.phase == Ready && db.log == old(db.log) && db.now == old(db.now)
      ensures old(steps) <= steps && SameButOne(old(db.ws), db.ws, old(db.phase.h))
      ensures old(db.phase.h) in db.ws && db.ws[old(db.phase.h)].checkedAt == Some(db.now)
    {
      hide IsRun;
      ReliableState(cfg, trace, steps);
      if t.raises || !Unlocked(db, db.phase.h) {
        PollFailEffect(cfg, db);
        Execute(Step.Tick(PollFail));
      } else {
        var owner := if db.phase.w.owner != "" then db.phase.w.owner else t.owner;
        PollWriteEffect(cfg, db, owner);
        Execute(Step.Tick(PollWrite(owner)));
      }
    }

    /** Some call since that turn came back without an answer. */
    ghost predicate Unanswered(from: nat)
      reads `turn
    {
      exists k: nat :: from <= k < turn && !script(k).answered
    }

    /** The polls of a tick: up to 64 workstreams not checked for half a minute, the longest unchecked first, whether or
        not anything is pending.  Unless the session is lost, each of them has been checked now, except those without a
        dispatcher. */
    method PollAll() returns (polled: set<Handle>, without: set<Handle>)
      requires Valid() && Holding() && db.phase == Ready
      modifies this
      ensures Valid() && old(steps) <= steps && old(turn) <= turn && (Holding() ==> db.phase == Ready && db.log == old(db.log))
      ensures Selected(old(db.ws), old(db.now), polled) && (Holding() ==> SelectedAll(old(db.ws), old(db.now), polled))
      ensures Holding() ==> AllChecked(old(db.ws), db.ws, polled - without, old(db.now))
      ensures Holding() && without != {} ==> Unanswered(old(turn))
    {
      hide IsRun, AllChecked, RowsKept, Selecting, Selected, SelectedAll;
      var rows, since := db.ws, db.now;
      polled, without := {}, {};
      var rest := set h | h in rows && Unchecked(rows[h], since);
      SelectNone(rows, since, rest);
      while rest != {} && |polled| < 64 && Holding()
        invariant Valid() && old(steps) <= steps && old(turn) <= turn && Selecting(rows, since, polled, rest)
        invariant Holding() ==> db.phase == Ready && db.log == old(db.log) && since <= db.now
        invariant Holding() ==> RowsKept(rows, db.ws, rest) && AllChecked(rows, db.ws, polled - without, since)
        invariant Holding() && without != {} ==> Unanswered(old(turn))
        decreases rest
      {
        SelectFrom(rows, since, polled, rest);
        var h := LongestUnchecked(rows, rest);
        SelectNext(rows, since, polled, rest, h);
        without := PollRow(rows, rest, polled, without, since, h);
        rest, polled := rest - {h}, polled + {h};
      }
      SelectDone(rows, since, polled, rest);
    }

    /** One row of the polls. */
    method PollRow(rows: Workstreams, ghost rest: set<Handle>, ghost polled: set<Handle>, without: set<Handle>,
                   ghost since: Time, h: Handle) returns (without': set<Handle>)
      requires Valid() && Holding() && db.phase == Ready && since <= db.now
      requires RowsKept(rows, db.ws, rest) && AllChecked(rows, db.ws, polled - without, since)
      requires h in rest && h !in polled && h in rows && Unchecked(rows[h], since)
      modifies this
      ensures Valid() && old(steps) <= steps && old(turn) <= turn
      ensures Holding() ==>
                && db.phase == Ready && db.log == old(db.log) && since <= db.now
                && RowsKept(rows, db.ws, rest - {h}) && AllChecked(rows, db.ws, polled + {h} - without', since)
      ensures Holding() && without' != without ==> Unanswered(old(turn))
    {
      hide IsRun, AllChecked, CheckedSince;
      without' := without;
      if Polls(rows[h]) {
        ghost var before := db.ws;
        var checked := PollOne(h, rows[h]);
        without' := if checked then without else without + {h};
        if Holding() {
          PolledNow(db.ws, h, old(db.now), since, checked);
          assert polled - (without' - {h}) == polled - without;
          OneMoreChecked(rows, before, db.ws, rest, polled, without', since, h);
        }
      } else {
        PassedOver(rows, db.ws, polled, without, {h}, since);
      }
    }

    // ----- one delivery -----

    /** There is a reason for putting the delivery off now. */
    ghost predicate Because(why: Why, c: Start)
      reads this
    {
      HasReason(cfg, script, turn, db, why, c)
    }

    /** The delivery that started at `c` is going on. */
    ghost predicate Underway(c: Start)
      reads this
    {
      && Holding() && db.phase.Delivering() && db.phase.b == c.b && db.log == c.log
      && c.steps <= steps && c.turn <= turn
    }

    /** It has ended: with one delivery recorded, with its rows put off for a reason, or with the session. */
    ghost predicate Ended(r: Result, c: Start)
      reads this
    {
      && c.steps <= steps && c.turn <= turn
      && match r
         case Done => Holding() && db.phase == Ready && Recorded(c.log, db.log, c.b)
         case Deferred(why) =>
           && Holding() && db.phase == Ready && db.log == c.log
           && WasDeferred(cfg, script, turn, trace, steps, why, c) && PutOff(db.pending, c.b.ids, db.now)
         case SessionLost => !Holding()
    }

    /** Give up on the rows read, or on those of them that were sent. */
    method GiveUp(why: Why, sent: bool, ghost c: Start) returns (r: Result)
      requires Valid() && Underway(c) && Because(why, c) && (sent <==> OnlySent(script, turn, db))
      modifies `db, `trace, `steps
      ensures Valid() && r == Deferred(why) && Ended(r, c)
    {
      assert cfg.Valid();
      hide IsRun, HasReason, Recorded, Pause, Deferrable, DeferUntil, PutOffBy;
      ReasonPauses(cfg, script, turn, db, why, c);
      SentIsHead(cfg, trace, steps);
      var ids := if sent then db.phase.b.ids[..db.phase.n] else db.phase.b.ids;
      var delay := Pause(cfg, why, db);
      DeferringPutsOff(db.pending, db.phase.b.ids, ids, db.now, delay);
      Postpone(ids, delay);
      PutOffIsPast(db.pending, c.b.ids, db.now, delay);
      r := Deferred(why);
    }

    /** Find the group's workstream, or reserve one if there is room. */
    method Obtain(ghost c: Start) returns (r: Option<Result>)
      requires Valid() && Underway(c) && db.phase.Read? && db.phase.b.IdentityHolds()
      modifies this
      ensures Valid() && if r.None? then Underway(c) && db.phase.Found? else Ended(r.value, c)
    {
      hide IsRun, HasReason;
      var found := FindWorkstream(db.ws, db.phase.b.Wanted());
      if found.Some? {
        AdoptEffect(cfg, db, found.value);
        Execute(Admission(Adopt(found.value)));
        r := None;
      } else {
        r := OpenNew(c);
      }
    }

    /** Reserve a workstream if neither the cap nor the rate ceiling is reached. */
    method OpenNew(ghost c: Start) returns (r: Option<Result>)
      requires Valid() && Underway(c) && db.phase.Read? && db.phase.b.IdentityHolds()
      requires NoneMatches(db.ws, db.phase.b.Wanted())
      modifies this
      ensures Valid() && if r.None? then Underway(c) && db.phase.Found? else Ended(r.value, c)
    {
      assert cfg.Valid();
      hide IsRun;
      if |Unclosed(db.ws)| >= cfg.maxActive || |OpenedAfter(db.ws, db.now - MINUTE)| >= cfg.rateCeiling {
        var put := GiveUp(NoCapacity, false, c);
        r := Some(put);
      } else {
        AdmitEffect(cfg, db);
        Execute(Admission(Admit));
        r := ReserveRow(c);
      }
    }

    /** Insert the row of a new workstream. */
    method ReserveRow(ghost c: Start) returns (r: Option<Result>)
      requires Valid() && Underway(c) && db.phase.Admitted?
      modifies this
      ensures Valid() && if r.None? then Underway(c) && db.phase.Found? else Ended(r.value, c)
    {
      hide IsRun;
      var t := Await();
      if !Holding() {
        return Some(SessionLost);
      }
      if t.raises || t.handle in db.ws {
        var put := GiveUp(CallRaised, false, c);
        return Some(put);
      }
      ReserveEffect(cfg, db, t.handle);
      Execute(Admission(Reserve(t.handle)));
      r := None;
    }

    /** Create the agent of a workstream not attempted yet. */
    method CreateAgent(ghost c: Start) returns (r: Option<Result>)
      requires Valid() && Underway(c) && db.phase.Claimed? && db.phase.w.status == Opening && !db.phase.w.attempted
      modifies this
      ensures Valid()
      ensures if r.None? then Underway(c) && db.phase.Claimed? && db.phase.w.status == Open && Created(db, db.phase.h)
              else Ended(r.value, c)
    {
      hide IsRun, HasReason;
      ReliableState(cfg, trace, steps);
      AttemptEffect(cfg, db);
      Execute(Admission(Attempt));
      var t := Await();
      if !Holding() {
        return Some(SessionLost);
      }
      r := ReadCreateAnswer(t, c);
    }

    method ReadCreateAnswer(t: Turn, ghost c: Start) returns (r: Option<Result>)
      requires Valid() && Underway(c) && db.phase.Creating? && c.turn < turn && t == script(turn - 1)
      modifies `db, `trace, `steps
      ensures Valid()
      ensures if r.None? then Underway(c) && db.phase.Claimed? && db.phase.w.status == Open && Created(db, db.phase.h)
              else Ended(r.value, c)
    {
      hide IsRun;
      CreateReliable(cfg, trace, steps);
      var outcome := db.creates[db.phase.c].outcome;
      if t.raises || !t.answered {
        var put := GiveUp(CallRaised, false, c);
        return Some(put);
      }
      if outcome == Accepted {
        Execute(Admission(CreateOk));
        return None;
      }
      if outcome == Refused {
        Execute(Admission(CreateRefused));
      }
      var put := GiveUp(NotCreated, false, c);
      r := Some(put);
    }

    /** Inspect the workstream once more before sending. */
    method Confirm(ghost c: Start) returns (r: Option<Result>)
      requires Valid() && Underway(c) && db.phase.Claimed?
      requires !(db.phase.w.status == Opening && !db.phase.w.attempted)
      modifies this
      ensures Valid()
      ensures if r.None? then Underway(c) && db.phase.Confirmed? else Ended(r.value, c)
    {
      hide IsRun;
      var t := Await();
      if !Holding() {
        return Some(SessionLost);
      }
      if t.raises {
        var put := GiveUp(CallRaised, false, c);
        return Some(put);
      }
      var reply := if t.answered && Truthful(db.agents, db.phase.h, t.reply) then t.reply else Unknown;
      InspectEffect(cfg, db, reply);
      Execute(Message(Inspect(reply)));
      r := WriteConfirmation(c);
    }

    method WriteConfirmation(ghost c: Start) returns (r: Option<Result>)
      requires Valid() && Underway(c) && db.phase.Inspected?
      modifies this
      ensures Valid()
      ensures if r.None? then Underway(c) && db.phase.Confirmed? else Ended(r.value, c)
    {
      hide IsRun;
      var t := Await();
      if !Holding() {
        return Some(SessionLost);
      }
      ReliableState(cfg, trace, steps);
      if t.raises {
        var put := GiveUp(CallRaised, false, c);
        return Some(put);
      }
      if !Unlocked(db, db.phase.h) {
        var put := GiveUp(RowLocked, false, c);
        return Some(put);
      }
      var owner := if db.phase.w.owner != "" then db.phase.w.owner else t.owner;
      InspectWriteEffect(cfg, db, owner);
      ghost var before := steps;
      Execute(Message(InspectWrite(owner)));
      r := None;
    }

    /** Send as much of the batch as fits one message, if the inspection allows it. */
    method SendBatch(ghost c: Start) returns (r: Result)
      requires Valid() && Underway(c) && db.phase.Confirmed?
      modifies this
      ensures Valid() && Ended(r, c)
    {
      hide IsRun;
      var reply, w, b := db.phase.reply, db.phase.w, db.phase.b;
      ReliableState(cfg, trace, steps);
      if !reply.Up() {
        r := GiveUp(NotConfirmed, false, c);
        return;
      }
      if reply.project != b.head.project {
        r := GiveUp(OtherProject, false, c);
        return;
      }
      if w.lastSentAt.Some? && cfg.feedInterval - (db.now - w.lastSentAt.value) > 0 {
        assert db.phase.h in db.ws && db.ws[db.phase.h].lastSentAt == w.lastSentAt;
        r := GiveUp(Batching, false, c);
        return;
      }
      r := SendMessage(c);
    }

    method SendMessage(ghost c: Start) returns (r: Result)
      requires Valid() && Underway(c) && db.phase.Confirmed?
      requires MaySend(cfg, db.phase.b, db.phase.w, db.phase.reply, db.now)
      modifies this
      ensures Valid() && Ended(r, c)
    {
      hide IsRun, HasReason;
      ReliableState(cfg, trace, steps);
      var n := Pack(TextsOf(db.pending, db.phase.b.ids));
      SendEffect(cfg, db, n);
      Execute(Message(Send(n)));
      var t := Await();
      if !Holding() {
        return SessionLost;
      }
      r := ReadSendAnswer(t, c);
    }

    /** A refusal puts off the rows sent; an exception puts off all rows read. */
    method ReadSendAnswer(t: Turn, ghost c: Start) returns (r: Result)
      requires Valid() && Underway(c) && db.phase.Sending? && c.turn < turn && t == script(turn - 1)
      modifies `db, `trace, `steps
      ensures Valid() && Ended(r, c)
    {
      hide IsRun;
      SendReliable(cfg, trace, steps);
      SentIsHead(cfg, trace, steps);
      if t.raises || !t.answered {
        r := GiveUp(CallRaised, !t.raises, c);
      } else if db.feeds[db.phase.f].outcome == Accepted {
        Execute(Message(Deliver));
        r := Done;
      } else {
        r := GiveUp(SendRefused, true, c);
      }
    }

    /** `_deliver`: one group, from the rows read to a committed delivery or a deferral. */
    method DeliverGroup(ids: seq<nat>) returns (r: Result)
      requires Valid() && Holding() && TickEnabled(cfg, db, ReadRows(ids))
      modifies this
      ensures Valid() && Ended(r, Start(BatchOf(old(db), ids), old(db.log), old(steps) + [Step.Tick(ReadRows(ids))], old(turn)))
    {
      hide IsRun;
      ghost var c := Start(BatchOf(db, ids), db.log, steps + [Step.Tick(ReadRows(ids))], turn);
      ReadEffect(cfg, db, ids);
      Execute(Step.Tick(ReadRows(ids)));
      var t := Await();
      if !Holding() {
        return SessionLost;
      }
      if t.raises {
        r := GiveUp(CallRaised, false, c);
      } else if !db.phase.b.IdentityHolds() {
        r := GiveUp(IdentityChanged, false, c);
      } else {
        r := DeliverTo(c);
      }
    }

    /** The rest of `_deliver`, once the frozen identity is known to hold. */
    method DeliverTo(ghost c: Start) returns (r: Result)
      requires Valid() && Underway(c) && db.phase.Read? && db.phase.b.IdentityHolds()
      modifies this
      ensures Valid() && Ended(r, c)
    {
      hide IsRun, HasReason;
      var o := Obtain(c);
      if o.Some? {
        return o.value;
      }
      ClaimEffect(cfg, db);
      Execute(Admission(Claim));
      if db.phase.w.status == Opening && !db.phase.w.attempted {
        o := CreateAgent(c);
        if o.Some? {
          return o.value;
        }
      }
      o := Confirm(c);
      if o.Some? {
        return o.value;
      }
      r := SendBatch(c);
    }

    // ----- the tick -----

    /** The deliveries of a tick: one batch for each group that is due, oldest group first; false when a query raises. */
    method DeliverAll() returns (ok: bool)
      requires Valid() && Holding() && db.phase == Ready
      modifies this
      ensures Valid() && old(steps) <= steps && old(turn) <= turn
      ensures Holding() ==> db.phase == Ready && OnePerGroup(old(db.log), db.log)
      ensures Holding() && ok ==> exists from: nat :: |old(steps)| <= from <= |steps| && Toured(cfg, trace, steps, from)
      ensures Holding() && !ok ==> exists k: nat :: old(turn) <= k < turn && script(k).raises
    {
      hide IsRun, LookedAt, Visited, IsDueList, Toured;
      var t := Await();
      if t.raises || !Holding() {
        return false;
      }
      NumbersBelow(cfg, trace, steps);
      var keys := DueGroups(db.pending, db.nextId, db.now, 256);
      ghost var tr, st := trace, steps;
      ok := ServeAll(keys);
      if Holding() && ok {
        RunGrows(cfg, tr, st, trace, steps);
        TouredNow(cfg, trace, steps, |st|, keys);
      }
    }

    method ServeAll(keys: seq<GroupKey>) returns (ok: bool)
      requires Valid() && Holding() && db.phase == Ready && Distinct(keys)
      modifies this
      ensures Valid() && old(steps) <= steps && old(turn) <= turn
      ensures Holding() ==> db.phase == Ready && OnePerGroup(old(db.log), db.log)
      ensures Holding() && ok ==> forall key <- keys :: Visited(cfg, trace, steps, |old(steps)|, key)
      ensures Holding() && !ok ==> exists k: nat :: old(turn) <= k < turn && script(k).raises
    {
      hide IsRun, LookedAt, Visited;
      ghost var log, served := db.log, [];
      ok := true;
      var k := 0;
      while k < |keys| && Holding() && ok
        invariant Valid() && old(steps) <= steps && old(turn) <= turn && k <= |keys|
        invariant Holding() ==> db.phase == Ready && Served(old(db.log), db.log, served)
        invariant Distinct(served) && forall j | k <= j < |keys| :: keys[j] !in served
        invariant Holding() && ok ==> forall j | 0 <= j < k :: Visited(cfg, trace, steps, |old(steps)|, keys[j])
        invariant Holding() && !ok ==> exists k: nat :: old(turn) <= k < turn && script(k).raises
      {
        ghost var before, tr, st := db.log, trace, steps;
        var r, ids;
        ok, r, ids := ServeGroup(keys[k]);
        if r == Some(Done) && Holding() {
          ServedMore(log, before, db.log, served, [keys[k]]);
          served := served + [keys[k]];
        }
        if Holding() && ok {
          RunGrows(cfg, tr, st, trace, steps);
          VisitedStays(cfg, trace, steps, trace, steps, |st|, |old(steps)|, keys[k]);
          forall j | 0 <= j < k ensures Visited(cfg, trace, steps, |old(steps)|, keys[j]) {
            VisitedStays(cfg, tr, st, trace, steps, |old(steps)|, |old(steps)|, keys[j]);
          }
        }
        k := k + 1;
      }
      if Holding() {
        ServedApart(log, db.log, served);
      }
    }

    /** One group of the tick: skipped only if its oldest row is gone or not due any more, or its rule is gone; `ok` is
        false when reading its rows raises. */
    method ServeGroup(key: GroupKey) returns (ok: bool, r: Option<Result>, ids: seq<nat>)
      requires Valid() && Holding() && db.phase == Ready
      modifies this
      ensures Valid() && old(steps) <= steps && old(turn) <= turn
      ensures Holding() ==>
                && db.phase == Ready
                && (if r == Some(Done) then Served(old(db.log), db.log, [key]) else db.log == old(db.log))
      ensures Holding() && ok ==> Visited(cfg, trace, steps, |old(steps)|, key)
      ensures Holding() && r.Some? && r != Some(Done) ==> PutOff(db.pending, ids, db.now)
      ensures !ok ==> r.None? && script(old(turn)).raises && turn == old(turn) + 1
    {
      hide IsRun, LookedAt;
      ok, r, ids := true, None, [];
      var t := Await();
      if t.raises {
        ok := false;
        return;
      }
      if !Holding() {
        return;
      }
      NumbersBelow(cfg, trace, steps);
      ids := SelectHead(db.pending, db.nextId, key, cfg.batchSize);
      ghost var k, tr, st := |steps|, trace, steps;
      assert |trace| == k + 1 by {
        RunGrows(cfg, trace, steps, trace, steps);
      }
      if ids != [] && db.pending[ids[0]].availableAt <= db.now && (key.rule, key.target) in db.rules {
        r := ServeRows(key, ids);
        RunGrows(cfg, tr, st, trace, steps);
      }
      LookedNow(cfg, trace, steps, k, key, ids);
    }

    method ServeRows(key: GroupKey, ids: seq<nat>) returns (r: Option<Result>)
      requires Valid() && Holding() && TickEnabled(cfg, db, ReadRows(ids)) && db.pending[ids[0]].key == key
      modifies this
      ensures Valid() && r.Some? && old(steps) + [Step.Tick(ReadRows(ids))] <= steps && old(turn) <= turn
      ensures Holding() ==>
                && db.phase == Ready
                && (if r == Some(Done) then Served(old(db.log), db.log, [key]) else db.log == old(db.log))
      ensures Holding() && r != Some(Done) ==> PutOff(db.pending, ids, db.now)
    {
      hide IsRun, HasReason;
      ghost var before := db;
      var result := DeliverGroup(ids);
      r := Some(result);
      if result == Done {
        ghost var d :| db.log == before.log + [d] && d.key == key && [] < d.ids <= ids;
        ServedOne(before.log, d);
      }
    }

    /** What a complete tick has done between its steps `from` and the last: it took the lock, polled, cancelled,
        looked at every due group and let go. */
    ghost predicate Ticked(from: nat, without: set<Handle>)
      reads `trace, `steps
    {
      exists a: nat, p: nat, b: nat, f: nat :: from <= a && TickedAt(a, p, b, f, without)
    }

    ghost predicate TickedAt(a: nat, p: nat, b: nat, f: nat, without: set<Handle>)
      reads `trace, `steps
    {
      && a < p <= b < f < |steps| < |trace|
      && steps[a] == Step.Tick(Acquire(session)) && steps[b] == Step.Tick(Cancel)
      && steps[|steps| - 1] == Step.Tick(Release)
      && PolledBetween(trace[p], trace[b], without) && Toured(cfg, trace, steps, f)
    }

    /** `tick`: if the lock is free take it, poll, cancel, deliver and let go. */
    method Tick() returns (end: TickEnd, ghost without: set<Handle>)
      requires Valid() && !Holding()
      modifies this
      ensures Valid() && !Holding() && old(steps) <= steps
      ensures end == LockTaken ==> db.lock.Some?
      ensures end == Failed ==> exists k: nat :: old(turn) <= k < turn && script(k).raises
      ensures end == Completed ==> Ticked(|old(steps)|, without) && (without != {} ==> Unanswered(old(turn)))
    {
      hide IsRun, TickEnabled, TickApply, OnePerGroup, AllChecked, Selected, SelectedAll, Toured;
      without := {};
      var t := Await();
      if db.lock.Some? {
        end := LockTaken;
        return;
      }
      ghost var a := |steps|;
      LockEffects(cfg, db);
      Execute(Step.Tick(Acquire(session)));
      end, without := TickLocked(a);
    }

    /** `_tick_locked`, and letting go of the lock. */
    method TickLocked(ghost a: nat) returns (end: TickEnd, ghost without: set<Handle>)
      requires Valid() && Holding() && db.phase == Ready && |steps| == a + 1 && steps[a] == Step.Tick(Acquire(session))
      modifies this
      ensures Valid() && !Holding() && old(steps) <= steps && old(turn) <= turn && end != LockTaken
      ensures end == Failed ==> exists k: nat :: old(turn) <= k < turn && script(k).raises
      ensures end == Completed ==> Ticked(a, without) && (without != {} ==> Unanswered(old(turn)))
    {
      hide IsRun, TickEnabled, TickApply, OnePerGroup, AllChecked, Selected, SelectedAll, Toured;
      without := {};
      var t := Await();
      if t.raises || !Holding() {
        end := LetGo(t.raises);
        return;
      }
      ghost var p, start, tr, st := |steps|, db, trace, steps;
      var polled, without' := PollAll();
      without := without';
      t := Await();
      if t.raises || !Holding() {
        end := LetGo(t.raises);
        return;
      }
      assert PolledBetween(start, db, without);
      RunGrows(cfg, tr, st, trace, steps);
      end := CancelAndDeliver(a, p, start, without);
    }

    /** The lock is released, unless the session is gone. */
    method LetGo(failed: bool) returns (end: TickEnd)
      requires Valid()
      modifies `db, `trace, `steps
      ensures Valid() && !Holding() && old(steps) <= steps
      ensures end == if !old(Holding()) then Lost else if failed then Failed else Completed
      ensures old(Holding()) ==> steps == old(steps) + [Step.Tick(Release)]
    {
      hide IsRun, TickEnabled, TickApply;
      if !Holding() {
        return Lost;
      }
      LockEffects(cfg, db);
      Execute(Step.Tick(Release));
      end := if failed then Failed else Completed;
    }

    method CancelAndDeliver(ghost a: nat, ghost p: nat, ghost start: State, ghost without: set<Handle>) returns (end: TickEnd)
      requires Valid() && Holding() && db.phase == Ready && a < p <= |steps| < |trace|
      requires steps[a] == Step.Tick(Acquire(session)) && trace[p] == start && PolledBetween(start, db, without)
      modifies this
      ensures Valid() && !Holding() && old(steps) <= steps && old(turn) <= turn && end != LockTaken
      ensures end == Failed ==> exists k: nat :: old(turn) <= k < turn && script(k).raises
      ensures end == Completed ==> Ticked(a, without)
    {
      hide IsRun, TickEnabled, TickApply, OnePerGroup, PolledBetween, Toured;
      ghost var b := |steps|;
      LockEffects(cfg, db);
      Execute(Step.Tick(Cancel));
      var ok := DeliverAll();
      ghost var held, tr, st := Holding(), trace, steps;
      end := LetGo(!ok);
      if end == Completed {
        ghost var f: nat :| b < f <= |st| && Toured(cfg, tr, st, f);
        RunGrows(cfg, tr, st, trace, steps);
        RunGrows(cfg, old(trace), old(steps), trace, steps);
        TouredStays(cfg, tr, st, trace, steps, f);
        assert trace[p] == old(trace)[p] && trace[b] == old(trace)[b] && steps[a] == old(steps)[a] && steps[b] == st[b];
        assert TickedAt(a, p, b, f, without);
      }
    }
  }
}
