/**
 The stream of one group: when its rows are committed in the order of their numbers and none is dropped,
 the batches delivered so far, put end to end, are the beginning of what was enqueued; and only then are
 they all of it and in the order of the numbers.
 */
module QueueSequence {
  import opened QueueTables
  import opened QueueProtocol
  import opened QueueOrder
  import opened QueueRuns

  /** The rows of a group in the order of their commits. */
  ghost function Enqueued(committed: seq<Entry>, key: GroupKey): seq<nat> {
    if committed == [] then []
    else
      var last := committed[|committed| - 1];
      Enqueued(committed[..|committed| - 1], key) + if last.key == key then [last.id] else []
  }

  /** The batches of a group, put end to end. */
  ghost function Sent(log: seq<Delivered>, key: GroupKey): seq<nat> {
    if log == [] then []
    else
      var last := log[|log| - 1];
      Sent(log[..|log| - 1], key) + if last.key == key then last.ids else []
  }

  ghost predicate CommitsInOrder(committed: seq<Entry>, key: GroupKey) {
    forall j, k | 0 <= j < k < |committed| ::
      committed[j].key == key && committed[k].key == key ==> committed[j].id < committed[k].id
  }

  lemma {:induction false} EnqueuedMembers(committed: seq<Entry>, key: GroupKey, x: nat)
    ensures x in Enqueued(committed, key) <==> Entered(committed, x, key)
  {
    if committed != [] {
      var front, last := committed[..|committed| - 1], committed[|committed| - 1];
      EnqueuedMembers(front, key, x);
      if Entered(front, x, key) {
        var k :| 0 <= k < |front| && front[k].id == x && front[k].key == key;
        assert committed[k].id == x && committed[k].key == key;
      }
      if last.key == key && last.id == x {
        assert committed[|committed| - 1].id == x;
      }
    }
  }

  lemma AppendAscends(a: seq<nat>, b: seq<nat>)
    requires Ascending(a) && Ascending(b)
    requires forall x, y :: x in a && y in b ==> x < y
    ensures Ascending(a + b)
  {
    forall i, j | 0 <= i < j < |a + b|
      ensures (a + b)[i] < (a + b)[j]
    {
      if i < |a| <= j {
        assert (a + b)[i] in a && (a + b)[j] in b;
      }
    }
  }

  lemma {:induction false} EnqueuedAscends(committed: seq<Entry>, key: GroupKey)
    requires CommitsInOrder(committed, key)
    ensures Ascending(Enqueued(committed, key))
  {
    if committed != [] {
      var front, last := committed[..|committed| - 1], committed[|committed| - 1];
      EnqueuedAscends(front, key);
      if last.key == key {
        forall x | x in Enqueued(front, key)
          ensures x < last.id
        {
          EnqueuedMembers(front, key, x);
          var k :| 0 <= k < |front| && front[k].id == x && front[k].key == key;
          assert committed[k].id < committed[|committed| - 1].id;
        }
        AppendAscends(Enqueued(front, key), [last.id]);
      }
    }
  }

  lemma {:induction false} SentMembers(log: seq<Delivered>, key: GroupKey, x: nat)
    ensures x in Sent(log, key) <==> exists a :: 0 <= a < |log| && log[a].key == key && x in log[a].ids
  {
    if log != [] {
      var front, last := log[..|log| - 1], log[|log| - 1];
      SentMembers(front, key, x);
      if exists a :: 0 <= a < |log| && log[a].key == key && x in log[a].ids {
        var a :| 0 <= a < |log| && log[a].key == key && x in log[a].ids;
        if a < |front| {
          assert front[a].key == key && x in front[a].ids;
        }
      }
      if x in Sent(front, key) {
        var a :| 0 <= a < |front| && front[a].key == key && x in front[a].ids;
        assert log[a].key == key && x in log[a].ids;
      }
    }
  }

  /** In such a group, a row committed after another is the larger. */
  lemma LaterIsLarger(committed: seq<Entry>, key: GroupKey, n: nat, x: nat, y: nat)
    requires CommitsInOrder(committed, key)
    requires Entered(committed, x, key) && Entered(committed, y, key)
    requires forall j, k | 0 <= j < k < |committed| :: committed[j].id != committed[k].id
    requires CommittedBy(committed, n, x) && !CommittedBy(committed, n, y)
    ensures x < y
  {
    var k :| 0 <= k < n && k < |committed| && committed[k].id == x;
    var j :| 0 <= j < |committed| && committed[j].id == y && committed[j].key == key;
    var m :| 0 <= m < |committed| && committed[m].id == x && committed[m].key == key;
    assert k == m;
    assert j >= n;
  }

  lemma {:induction false} SentAscends(committed: seq<Entry>, pending: Outbox, log: seq<Delivered>, key: GroupKey)
    requires OrderOk(committed, pending, log) && CommitsInOrder(committed, key)
    requires forall j, k | 0 <= j < k < |committed| :: committed[j].id != committed[k].id
    ensures Ascending(Sent(log, key))
  {
    if log != [] {
      var front, last := log[..|log| - 1], log[|log| - 1];
      SentAscends(committed, pending, front, key);
      if last.key == key {
        forall x, y | x in Sent(front, key) && y in last.ids
          ensures x < y
        {
          SentMembers(front, key, x);
          var a :| 0 <= a < |front| && front[a].key == key && x in front[a].ids;
          assert log[a] == front[a] && log[|log| - 1] == last;
          if !CommittedBy(committed, log[a].seen, y) {
            LaterIsLarger(committed, key, log[a].seen, x, y);
          }
        }
        AppendAscends(Sent(front, key), last.ids);
      }
    }
  }

  lemma TailsMatch(a: seq<nat>, b: seq<nat>)
    requires Ascending(a) && Ascending(b) && a != [] && b != [] && a[0] == b[0]
    requires forall x <- a :: x in b
    requires forall y <- b :: y in a || forall x <- a :: x < y
    ensures forall x <- a[1..] :: x in b[1..]
    ensures forall y <- b[1..] :: y in a[1..] || forall x <- a[1..] :: x < y
  {
    assert a == [a[0]] + a[1..] && b == [b[0]] + b[1..];
    forall x | x in a[1..] ensures x in b[1..] {
      var k :| 0 <= k < |a[1..]| && a[1..][k] == x;
      assert a[0] < a[k + 1] && x in a;
      var m :| 0 <= m < |b| && b[m] == x;
      assert b[1..][m - 1] == x;
    }
    forall y | y in b[1..] ensures y in a[1..] || forall x <- a[1..] :: x < y {
      var k :| 0 <= k < |b[1..]| && b[1..][k] == y;
      assert b[0] < b[k + 1] && y in b;
      if y in a {
        var m :| 0 <= m < |a| && a[m] == y;
        assert a[1..][m - 1] == y;
      } else {
        assert forall x <- a[1..] :: x in a;
      }
    }
  }

  lemma {:induction false} AscendingPrefix(a: seq<nat>, b: seq<nat>)
    requires Ascending(a) && Ascending(b)
    requires forall x <- a :: x in b
    requires forall y <- b :: y in a || forall x <- a :: x < y
    ensures a <= b
  {
    if a != [] {
      assert a[0] in a;
      var m :| 0 <= m < |b| && b[m] == a[0];
      assert b[0] <= b[m] && b[0] in b;
      var n :| 0 <= n < |a| && a[n] == b[0];
      assert a[0] <= a[n];
      TailsMatch(a, b);
      AscendingPrefix(a[1..], b[1..]);
      assert a == [a[0]] + a[1..] && b == [b[0]] + b[1..];
    }
  }

  /** The batches of a group, put end to end, are the beginning of what was enqueued for it, and all
      of it once nothing of the group is pending. */
  lemma BatchesConcatenate(cfg: Config, tr: seq<State>, steps: seq<Step>, i: nat, key: GroupKey)
    requires IsRun(cfg, tr, steps) && i < |tr| && CommitsInOrder(tr[i].committed, key)
    requires forall x <- tr[i].dropped :: !Entered(tr[i].committed, x, key)
    ensures Sent(tr[i].log, key) <= Enqueued(tr[i].committed, key)
    ensures (forall r <- tr[i].pending :: tr[i].pending[r].key != key) ==>
              Sent(tr[i].log, key) == Enqueued(tr[i].committed, key)
  {
    HistoryAlways(cfg, tr, steps, i);
    var s := tr[i];
    var sent, all := Sent(s.log, key), Enqueued(s.committed, key);
    EnqueuedAscends(s.committed, key);
    SentAscends(s.committed, s.pending, s.log, key);
    forall x | x in sent
      ensures x in all
    {
      SentMembers(s.log, key, x);
      EnqueuedMembers(s.committed, key, x);
    }
    forall y | y in all
      ensures y in sent || (y in s.pending && s.pending[y].key == key && forall x <- sent :: x < y)
    {
      EnqueuedMembers(s.committed, key, y);
      SentOrWaiting(s, key, y);
    }
    AscendingPrefix(sent, all);
    assert |sent| < |all| ==> all[|sent|] in all;
  }

  lemma SentOrWaiting(s: State, key: GroupKey, y: nat)
    requires HistoryOk(s) && CommitsInOrder(s.committed, key) && Entered(s.committed, y, key) && y !in s.dropped
    ensures y in Sent(s.log, key)
            || (y in s.pending && s.pending[y].key == key && forall x <- Sent(s.log, key) :: x < y)
  {
    var k :| 0 <= k < |s.committed| && s.committed[k].id == y && s.committed[k].key == key;
    assert Accounted(s.committed[k], s.pending, s.events, DeliveredIds(s.log), s.dropped);
    if y in DeliveredIds(s.log) {
      DeliveredFrom(s.log, y);
      var a :| 0 <= a < |s.log| && y in s.log[a].ids;
      assert Entered(s.committed, y, s.log[a].key);
      SentMembers(s.log, key, y);
    } else {
      forall x | x in Sent(s.log, key)
        ensures x < y
      {
        SentMembers(s.log, key, x);
        var a :| 0 <= a < |s.log| && s.log[a].key == key && x in s.log[a].ids;
        if !CommittedBy(s.committed, s.log[a].seen, y) {
          LaterIsLarger(s.committed, key, s.log[a].seen, x, y);
        }
      }
    }
  }

  /** What was enqueued ascends only if it was committed in order. */
  lemma {:induction false} AscendsOnlyInOrder(committed: seq<Entry>, key: GroupKey)
    requires Ascending(Enqueued(committed, key))
    ensures CommitsInOrder(committed, key)
  {
    if committed != [] {
      var front, last := committed[..|committed| - 1], committed[|committed| - 1];
      var before, all := Enqueued(front, key), Enqueued(committed, key);
      forall i, j | 0 <= i < j < |before| ensures before[i] < before[j] {
        assert before[i] == all[i] && before[j] == all[j];
      }
      AscendsOnlyInOrder(front, key);
      forall j, k | 0 <= j < k < |committed| && committed[j].key == key && committed[k].key == key
        ensures committed[j].id < committed[k].id
      {
        if k < |front| {
          assert front[j] == committed[j] && front[k] == committed[k];
        } else {
          assert front[j] == committed[j] && Entered(front, committed[j].id, key);
          EnqueuedMembers(front, key, committed[j].id);
          var m :| 0 <= m < |before| && before[m] == committed[j].id;
          assert all[m] == before[m] && all[|all| - 1] == last.id;
        }
      }
    }
  }

  /** Once nothing of a group is pending and none of it was dropped, its batches end to end are what was enqueued, and in
      the order of the numbers, if and only if its rows were committed in that order. */
  lemma InOrderExactly(cfg: Config, tr: seq<State>, steps: seq<Step>, i: nat, key: GroupKey)
    requires IsRun(cfg, tr, steps) && i < |tr|
    requires forall x <- tr[i].dropped :: !Entered(tr[i].committed, x, key)
    requires forall r <- tr[i].pending :: tr[i].pending[r].key != key
    ensures CommitsInOrder(tr[i].committed, key) <==>
              Sent(tr[i].log, key) == Enqueued(tr[i].committed, key) && Ascending(Sent(tr[i].log, key))
  {
    if CommitsInOrder(tr[i].committed, key) {
      BatchesConcatenate(cfg, tr, steps, i, key);
      EnqueuedAscends(tr[i].committed, key);
    }
    if Ascending(Enqueued(tr[i].committed, key)) {
      AscendsOnlyInOrder(tr[i].committed, key);
    }
  }
}
