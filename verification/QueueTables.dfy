/**
 The rows of the agent queue's three tables, and what its SQL statements select,
 as functions and predicates on tables.  A table is a map from primary key to row.
 */
module QueueTables {
  import opened Options

  /** Microseconds on one clock that never goes back. */
  type Time = int
  type Handle = nat

  const SECOND: Time := 1_000_000
  const MINUTE: Time := 60 * SECOND

  datatype Config = Config(
    maxActive: nat, rateCeiling: int, feedInterval: Time, pollInterval: Time, batchSize: nat)
  {
    /** What the constructor of `AgentQueue` accepts, after its clamping. */
    predicate Valid() {
      1 <= maxActive <= 4 && 0 <= feedInterval && SECOND <= pollInterval && 1 <= batchSize <= 100
    }
  }

  datatype Grouping = ByHost | ByRule

  /** The tuple that the JSON text of `group_key` encodes. */
  datatype GroupKey = GroupKey(
    rule: int, target: int, grouping: Grouping, source: Option<string>, owner: string, project: string)

  /** `source` is the one given for the firing, else the event's. */
  function GroupKeyOf(rule: int, target: int, grouping: Grouping, source: string, owner: string, project: string): GroupKey {
    GroupKey(rule, target, grouping, if grouping == ByHost then Some(source) else None, owner, project)
  }

  /** What `pack` stores of a firing. */
  datatype Payload = Payload(owner: string, project: string, source: string, seed: string, followUp: string)
  {
    /** The text a delivery sends for this firing. */
    function Text(): string {
      if followUp != "" then followUp else seed
    }
  }

  datatype Status = Opening | Open | Uncertain | Closed

  datatype Workstream = Workstream(
    rule: int, target: int, source: Option<string>, groupSource: Option<string>, owner: string, project: string,
    status: Status, openedAt: Time, closedAt: Option<Time>, checkedAt: Option<Time>, lastSentAt: Option<Time>,
    seeded: bool, attempted: bool)
  {
    function EffectiveSource(): Option<string> {
      if groupSource.Some? then groupSource else source
    }
  }

  datatype Pending = Pending(
    eventId: nat, key: GroupKey, payload: Payload, assignee: Option<Handle>, createdAt: Time, availableAt: Time)

  datatype Disposition = Queued | Opened | Fed | Resolved | Cancelled

  /** A rule as bound to one target: what a delivery re-reads before it sends. */
  datatype Rule = Rule(enabled: bool, grouping: Grouping, owner: string, project: string)

  type Workstreams = map<Handle, Workstream>
  type Outbox = map<nat, Pending>
  type History = map<nat, Disposition>
  type Rules = map<(int, int), Rule>

  // ----- _find_workstream -----

  datatype Criteria = Criteria(
    rule: int, target: int, owner: string, project: string, grouping: Grouping, source: Option<string>)

  /** The WHERE clause; a comparison with NULL is not true. */
  predicate Matches(w: Workstream, c: Criteria) {
    && w.status != Closed
    && w.rule == c.rule && w.target == c.target && w.owner == c.owner && w.project == c.project
    && (c.grouping == ByRule || (c.source.Some? && w.EffectiveSource() == c.source))
  }

  predicate NoneMatches(ws: Workstreams, c: Criteria) {
    forall h <- ws :: !Matches(ws[h], c)
  }

  /** A row that ORDER BY opened_at DESC LIMIT 1 may return. */
  predicate IsLatestMatch(ws: Workstreams, c: Criteria, h: Handle) {
    && h in ws && Matches(ws[h], c)
    && forall o <- ws :: Matches(ws[o], c) ==> ws[o].openedAt <= ws[h].openedAt
  }

  // ----- counts for admission -----

  function Unclosed(ws: Workstreams): set<Handle> {
    set h | h in ws && ws[h].status != Closed
  }

  function OpenedAfter(ws: Workstreams, t: Time): set<Handle> {
    set h | h in ws && ws[h].openedAt > t
  }

  /** The handles of `among` whose workstreams were opened in the minute that ends at `t`. */
  ghost function OpenedInMinute(ws: Workstreams, among: set<Handle>, t: Time): set<Handle> {
    set h | h in ws && h in among && t - MINUTE < ws[h].openedAt <= t
  }

  // ----- the outbox -----

  predicate Ascending(ids: seq<nat>) {
    forall i, j :: 0 <= i < j < |ids| ==> ids[i] < ids[j]
  }

  /** SELECT ... WHERE dedup_key = key ORDER BY id LIMIT n. */
  predicate IsHead(pending: Outbox, key: GroupKey, n: nat, ids: seq<nat>) {
    && Ascending(ids) && |ids| <= n
    && (forall i <- ids :: i in pending && pending[i].key == key)
    && forall j <- pending :: pending[j].key == key && j !in ids ==> |ids| == n && forall i <- ids :: i < j
  }

  function AssignTo(pending: Outbox, ids: seq<nat>, h: Handle): Outbox {
    map i | i in pending :: if i in ids then pending[i].(assignee := Some(h)) else pending[i]
  }

  /** `_defer`. */
  function DeferUntil(pending: Outbox, ids: seq<nat>, t: Time): Outbox {
    map i | i in pending :: if i in ids then pending[i].(availableAt := t) else pending[i]
  }

  function AsSet(ids: seq<nat>): set<nat> {
    set i | i in ids
  }

  function RowsWith(pending: Outbox, gone: set<nat>): Outbox {
    map i | i in pending && i in gone :: pending[i]
  }

  function EventsOf(pending: Outbox): set<nat> {
    set i | i in pending :: pending[i].eventId
  }

  /** UPDATE alert_events SET disposition = d for the events of the rows just deleted. */
  function Mark(events: History, rows: Outbox, d: Disposition): History {
    var es := EventsOf(rows);
    map e | e in events :: if e in es then d else events[e]
  }

  /** The rows a closure at time `t` resolves. */
  function ClosedBacklog(pending: Outbox, h: Handle, t: Time): set<nat> {
    set i | i in pending && pending[i].assignee == Some(h) && pending[i].createdAt <= t
  }

  /** The rows of rules that are disabled or no longer bound to the target. */
  function Unwanted(pending: Outbox, rules: Rules): set<nat> {
    set i | i in pending &&
      !((pending[i].key.rule, pending[i].key.target) in rules
        && rules[(pending[i].key.rule, pending[i].key.target)].enabled)
  }

  // ----- packing a batch -----

  const MAX_MESSAGE := 12000

  function TotalLength(texts: seq<string>): nat {
    if texts == [] then 0 else TotalLength(texts[..|texts| - 1]) + |texts[|texts| - 1]|
  }

  /** `n` rows fill one message: at least one, within the bound if more than one, and no more would fit. */
  predicate Fills(texts: seq<string>, n: nat) {
    && 1 <= n <= |texts|
    && (n == 1 || TotalLength(texts[..n]) <= MAX_MESSAGE)
    && (n == |texts| || TotalLength(texts[..n + 1]) > MAX_MESSAGE)
  }

  function TextsOf(pending: Outbox, ids: seq<nat>): seq<string>
    requires forall i <- ids :: i in pending
  {
    seq(|ids|, k requires 0 <= k < |ids| => pending[ids[k]].payload.Text())
  }

  /** The first `n` of the rows `ids` fill one message. */
  predicate PacksTo(pending: Outbox, ids: seq<nat>, n: nat) {
    (forall i <- ids :: i in pending) && Fills(TextsOf(pending, ids), n)
  }

  function PayloadsOf(pending: Outbox, ids: seq<nat>): seq<Payload>
    requires forall i <- ids :: i in pending
  {
    seq(|ids|, k requires 0 <= k < |ids| => pending[ids[k]].payload)
  }
}
