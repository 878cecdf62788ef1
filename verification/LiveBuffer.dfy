/**
 The live view's buffer: it keeps rows newest first while they arrive in any order, shows a bounded
 number of those that pass the filters, and patches the display instead of rebuilding it.
 */
module LiveBuffer {
  import opened Options

  const MAXI := 2500
  const MAXD := 1500

  /** A row without a time sorts as if infinitely new. */
  datatype Stamp = Timeless | At(ms: int)

  datatype Kind = Log | Alert | Eval

  datatype Item = Item(stamp: Stamp, arrival: nat, kind: Kind, text: string)

  predicate Later(a: Stamp, b: Stamp) {
    b.At? && (a.Timeless? || a.ms > b.ms)
  }

  /** The comparison of `findIdx`: by time, then by arrival. */
  predicate Newer(a: Item, b: Item) {
    Later(a.stamp, b.stamp) || (a.stamp == b.stamp && a.arrival > b.arrival)
  }

  ghost predicate NewestFirst(items: seq<Item>) {
    forall i, j :: 0 <= i < j < |items| ==> Newer(items[i], items[j])
  }

  // ----- what the buffer and the display should hold -----

  function Insert(items: seq<Item>, d: Item): seq<Item> {
    if items == [] then [d]
    else if Newer(d, items[0]) then [d] + items
    else [items[0]] + Insert(items[1..], d)
  }

  /** Everything received, newest first. */
  function Ordered(received: seq<Item>): seq<Item> {
    if received == [] then [] else Insert(Ordered(received[..|received| - 1]), received[|received| - 1])
  }

  function First(items: seq<Item>, n: nat): seq<Item> {
    if |items| <= n then items else items[..n]
  }

  function Passing(items: seq<Item>, passes: Item -> bool): seq<Item> {
    if items == [] then []
    else
      var last := items[|items| - 1];
      Passing(items[..|items| - 1], passes) + if passes(last) then [last] else []
  }

  function AsSet(items: seq<Item>): set<Item> {
    set d | d in items
  }

  // ----- laws of the specification -----

  lemma {:induction false} InsertKeeps(items: seq<Item>, d: Item)
    ensures multiset(Insert(items, d)) == multiset(items) + multiset{d}
  {
    if items != [] && !Newer(d, items[0]) {
      InsertKeeps(items[1..], d);
      assert items == [items[0]] + items[1..];
    }
  }

  lemma {:induction false} InsertSorts(items: seq<Item>, d: Item)
    requires NewestFirst(items) && forall x <- items :: x.arrival < d.arrival
    ensures NewestFirst(Insert(items, d))
  {
    if items != [] && !Newer(d, items[0]) {
      InsertSorts(items[1..], d);
      InsertKeeps(items[1..], d);
      forall x | x in Insert(items[1..], d) ensures Newer(items[0], x) {
        assert x in multiset(Insert(items[1..], d));
        assert x == d || x in items[1..];
      }
    } else {
      assert Insert(items, d) == [d] + items;
    }
  }

  lemma {:induction false} OrderedKeeps(received: seq<Item>)
    ensures multiset(Ordered(received)) == multiset(received)
  {
    if received != [] {
      var rest, d := received[..|received| - 1], received[|received| - 1];
      OrderedKeeps(rest);
      InsertKeeps(Ordered(rest), d);
      assert received == rest + [d];
    }
  }

  lemma OrderedMembers(received: seq<Item>)
    ensures forall d :: d in Ordered(received) <==> d in received
  {
    OrderedKeeps(received);
    assert forall d :: d in Ordered(received) <==> d in multiset(Ordered(received));
  }

  ghost predicate InArrivalOrder(received: seq<Item>) {
    forall i, j :: 0 <= i < j < |received| ==> received[i].arrival < received[j].arrival
  }

  /** What `Ordered` means: the same rows, sorted. */
  lemma {:induction false} OrderedSorts(received: seq<Item>)
    requires InArrivalOrder(received)
    ensures NewestFirst(Ordered(received)) && multiset(Ordered(received)) == multiset(received)
  {
    OrderedKeeps(received);
    if received != [] {
      var n := |received| - 1;
      OrderedSorts(received[..n]);
      OrderedMembers(received[..n]);
      InsertSorts(Ordered(received[..n]), received[n]);
    }
  }

  lemma FirstCons(x: Item, items: seq<Item>, n: nat)
    requires n > 0
    ensures First([x] + items, n) == [x] + First(items, n - 1)
    ensures First(First(items, n), n - 1) == First(items, n - 1)
  {
  }

  /** Keeping only the first `n` loses nothing that a longer history would bring back. */
  lemma {:induction false} InsertCapped(items: seq<Item>, d: Item, n: nat)
    ensures First(Insert(First(items, n), d), n) == First(Insert(items, d), n)
  {
    if items != [] && n > 0 {
      var x, rest := items[0], items[1..];
      assert items == [x] + rest;
      FirstCons(x, rest, n);
      FirstCons(d, items, n);
      FirstCons(d, First(items, n), n);
      if !Newer(d, x) {
        InsertCapped(rest, d, n - 1);
        assert First(items, n)[1..] == First(rest, n - 1);
        FirstCons(x, Insert(rest, d), n);
        FirstCons(x, Insert(First(rest, n - 1), d), n);
      }
    }
  }

  /** The binary search's position is where `Insert` puts the row. */
  lemma {:induction false} InsertAt(items: seq<Item>, d: Item, i: nat)
    requires i <= |items| && (forall k | 0 <= k < i :: !Newer(d, items[k])) && (i < |items| ==> Newer(d, items[i]))
    ensures items[..i] + [d] + items[i..] == Insert(items, d)
  {
    if i > 0 {
      var x, rest := items[0], items[1..];
      InsertAt(rest, d, i - 1);
      assert items[..i] == [x] + rest[..i - 1] && items[i..] == rest[i - 1..];
      assert [x] + rest[..i - 1] + [d] + rest[i - 1..] == [x] + (rest[..i - 1] + [d] + rest[i - 1..]);
    }
  }

  lemma {:induction false} PassingSplits(a: seq<Item>, b: seq<Item>, passes: Item -> bool)
    ensures Passing(a + b, passes) == Passing(a, passes) + Passing(b, passes)
  {
    if b == [] {
      assert a + b == a;
    } else {
      var n := |b| - 1;
      assert (a + b)[..|a + b| - 1] == a + b[..n];
      PassingSplits(a, b[..n], passes);
    }
  }

  lemma {:induction false} PassingMembers(items: seq<Item>, passes: Item -> bool)
    ensures forall d :: d in Passing(items, passes) <==> d in items && passes(d)
    ensures |Passing(items, passes)| <= |items|
  {
    if items != [] {
      PassingMembers(items[..|items| - 1], passes);
      assert items == items[..|items| - 1] + [items[|items| - 1]];
    }
  }

  /** The order of the display is the order of the buffer. */
  lemma {:induction false} PassingKeepsOrder(items: seq<Item>, passes: Item -> bool)
    requires NewestFirst(items)
    ensures NewestFirst(Passing(items, passes))
  {
    if items != [] {
      var n := |items| - 1;
      PassingKeepsOrder(items[..n], passes);
      PassingMembers(items[..n], passes);
      forall d | d in Passing(items[..n], passes) ensures Newer(d, items[n]) {
        var k :| 0 <= k < n && items[k] == d;
      }
    }
  }

  /** With a full buffer, exactly the newest rows received are kept. */
  lemma KeepsTheNewest(received: seq<Item>, d: Item)
    requires InArrivalOrder(received) && d in received
    ensures var items := First(Ordered(received), MAXI);
            d !in items <==> |items| == MAXI && forall x <- items :: Newer(x, d)
  {
    OrderedSorts(received);
    OrderedMembers(received);
    var all, items := Ordered(received), First(Ordered(received), MAXI);
    var k :| 0 <= k < |all| && all[k] == d;
    if k < |items| {
      assert items[k] == d && !Newer(d, d);
    } else {
      forall x | x in items ensures Newer(x, d) {
        var j :| 0 <= j < |items| && items[j] == x;
      }
      assert !Newer(d, d);
    }
  }

  // ----- how one row changes the display -----

  /** Insert before `ref`, or at the end. */
  function Before(wrap: seq<Item>, d: Item, ref: Option<Item>): seq<Item> {
    if wrap == [] then [d]
    else if ref == Some(wrap[0]) then [d] + wrap
    else [wrap[0]] + Before(wrap[1..], d, ref)
  }

  lemma {:induction false} BeforeAt(a: seq<Item>, b: seq<Item>, d: Item, ref: Option<Item>)
    requires if b == [] then ref.None? else ref == Some(b[0]) && b[0] !in a
    ensures Before(a + b, d, ref) == a + [d] + b
  {
    if a == [] {
      assert a + b == b;
      if b == [] {
        assert Before(b, d, ref) == [d];
      }
    } else {
      assert (a + b)[1..] == a[1..] + b;
      BeforeAt(a[1..], b, d, ref);
    }
  }

  /** What the scan for a reference node finds: the first row of `items` that is on display. */
  function NextShown(items: seq<Item>, nodes: set<Item>): Option<Item> {
    if items == [] then None
    else if items[0] in nodes then Some(items[0])
    else NextShown(items[1..], nodes)
  }

  /** Of the rows behind the new one, the first shown is the first passing one, if that is on display. */
  lemma {:induction false} NextShownPasses(items: seq<Item>, nodes: set<Item>, passes: Item -> bool)
    requires forall d <- items :: d in nodes ==> passes(d)
    requires Passing(items, passes) != [] ==> Passing(items, passes)[0] in nodes
    ensures NextShown(items, nodes) == if Passing(items, passes) == [] then None else Some(Passing(items, passes)[0])
  {
    if items != [] {
      assert items == [items[0]] + items[1..];
      PassingSplits([items[0]], items[1..], passes);
      assert [items[0]][..0] == [];
      if !passes(items[0]) {
        NextShownPasses(items[1..], nodes, passes);
      }
    }
  }

  /** `removeChild`. */
  function Without(wrap: seq<Item>, d: Item): seq<Item> {
    if wrap == [] then []
    else if wrap[0] == d then wrap[1..]
    else [wrap[0]] + Without(wrap[1..], d)
  }

  lemma {:induction false} WithoutLast(a: seq<Item>, d: Item)
    requires d !in a
    ensures Without(a + [d], d) == a
  {
    if a != [] {
      assert (a + [d])[1..] == a[1..] + [d];
      WithoutLast(a[1..], d);
    }
  }

  /** The display a full rebuild would produce. */
  function Shown(items: seq<Item>, passes: Item -> bool): seq<Item> {
    First(Passing(items, passes), MAXD)
  }

  lemma PassingOne(d: Item, passes: Item -> bool)
    ensures Passing([d], passes) == if passes(d) then [d] else []
  {
    assert [d][..0] == [];
  }

  lemma PassingAround(items: seq<Item>, i: nat, d: Item, passes: Item -> bool)
    requires i <= |items|
    ensures Passing(items, passes) == Passing(items[..i], passes) + Passing(items[i..], passes)
    ensures Passing(items[..i] + [d] + items[i..], passes) ==
            Passing(items[..i], passes) + (if passes(d) then [d] else []) + Passing(items[i..], passes)
  {
    hide Passing;
    assert items == items[..i] + items[i..];
    PassingSplits(items[..i], items[i..], passes);
    PassingSplits(items[..i] + [d], items[i..], passes);
    PassingSplits(items[..i], [d], passes);
    PassingOne(d, passes);
  }

  /** Patching one row in shows what a rebuild would show. */
  lemma PatchShows(items: seq<Item>, i: nat, d: Item, passes: Item -> bool)
    requires i <= |items| && NewestFirst(items) && passes(d)
    ensures var wrap := Shown(items, passes);
            First(Before(wrap, d, NextShown(items[i..], AsSet(wrap))), MAXD)
            == Shown(items[..i] + [d] + items[i..], passes)
  {
    PassingAround(items, i, d, passes);
    if |Passing(items[..i], passes)| >= MAXD {
      PatchBelow(items, i, d, passes);
    } else {
      PatchWithin(items, i, d, passes);
    }
  }

  /** The display is full of newer rows. */
  lemma PatchBelow(items: seq<Item>, i: nat, d: Item, passes: Item -> bool)
    requires i <= |items| && NewestFirst(items) && passes(d) && |Passing(items[..i], passes)| >= MAXD
    ensures var wrap := Shown(items, passes);
            Before(wrap, d, NextShown(items[i..], AsSet(wrap))) == First(Passing(items[..i], passes), MAXD) + [d]
  {
    var wrap := Shown(items, passes);
    PassingAround(items, i, d, passes);
    forall x | x in items[i..] ensures x !in wrap {
      NotAhead(items, i, x, passes);
    }
    NextShownNone(items[i..], AsSet(wrap));
    assert wrap + [] == wrap;
    BeforeAt(wrap, [], d, None);
  }

  /** There is room behind the newer rows. */
  lemma PatchWithin(items: seq<Item>, i: nat, d: Item, passes: Item -> bool)
    requires i <= |items| && NewestFirst(items) && passes(d) && |Passing(items[..i], passes)| < MAXD
    ensures var wrap := Shown(items, passes);
            var a := Passing(items[..i], passes);
            Before(wrap, d, NextShown(items[i..], AsSet(wrap)))
            == a + [d] + First(Passing(items[i..], passes), MAXD - |a|)
  {
    var wrap := Shown(items, passes);
    var a, b := Passing(items[..i], passes), Passing(items[i..], passes);
    PassingAround(items, i, d, passes);
    PassingMembers(items, passes);
    var rest := First(b, MAXD - |a|);
    assert wrap == a + rest;
    if b != [] {
      assert wrap[|a|] == b[0];
      PassingMembers(items[i..], passes);
      NotAhead(items, i, b[0], passes);
    }
    NextShownPasses(items[i..], AsSet(wrap), passes);
    BeforeAt(a, rest, d, NextShown(items[i..], AsSet(wrap)));
  }

  predicate Distinct(wrap: seq<Item>) {
    forall i, j :: 0 <= i < j < |wrap| ==> wrap[i] != wrap[j]
  }

  lemma {:induction false} BeforeKeeps(wrap: seq<Item>, d: Item, ref: Option<Item>)
    requires Distinct(wrap) && d !in wrap
    ensures Distinct(Before(wrap, d, ref)) && forall x :: x in Before(wrap, d, ref) <==> x == d || x in wrap
  {
    if wrap != [] && ref != Some(wrap[0]) {
      BeforeKeeps(wrap[1..], d, ref);
      assert wrap == [wrap[0]] + wrap[1..];
      assert wrap[0] !in wrap[1..];
    }
  }

  /** Each row is on display once. */
  lemma ShownDistinct(items: seq<Item>, passes: Item -> bool)
    requires NewestFirst(items)
    ensures Distinct(Shown(items, passes)) && forall d <- Shown(items, passes) :: d in items
  {
    PassingKeepsOrder(items, passes);
    PassingMembers(items, passes);
    var wrap := Shown(items, passes);
    forall i, j | 0 <= i < j < |wrap| ensures wrap[i] != wrap[j] {
      assert Newer(Passing(items, passes)[i], Passing(items, passes)[j]);
    }
    forall d | d in wrap ensures d in items {
      assert d in Passing(items, passes);
    }
  }

  lemma {:induction false} NextShownNone(items: seq<Item>, nodes: set<Item>)
    requires forall x <- items :: x !in nodes
    ensures NextShown(items, nodes) == None
  {
    if items != [] {
      NextShownNone(items[1..], nodes);
    }
  }

  /** A row from position `i` on does not pass as one from before it. */
  lemma NotAhead(items: seq<Item>, i: nat, x: Item, passes: Item -> bool)
    requires i <= |items| && NewestFirst(items) && x in items[i..]
    ensures x !in Passing(items[..i], passes)
  {
    PassingMembers(items[..i], passes);
    var k :| 0 <= k < |items| - i && items[i..][k] == x;
    forall j | 0 <= j < i ensures items[j] != x {
      assert Newer(items[j], items[i + k]);
    }
  }

  /** Evicting the oldest row shows what a rebuild would show. */
  lemma EvictionShows(items: seq<Item>, passes: Item -> bool)
    requires items != [] && NewestFirst(items)
    ensures var wrap := Shown(items, passes);
            var rm := items[|items| - 1];
            && (rm in AsSet(wrap) ==> Without(wrap, rm) == Shown(items[..|items| - 1], passes)
                                      && AsSet(Without(wrap, rm)) == AsSet(wrap) - {rm})
            && (rm !in AsSet(wrap) ==> wrap == Shown(items[..|items| - 1], passes))
  {
    var n := |items| - 1;
    var rest := Passing(items[..n], passes);
    assert items[n..] == [items[n]];
    NotAhead(items, n, items[n], passes);
    if passes(items[n]) && |rest| < MAXD {
      assert Shown(items, passes) == rest + [items[n]];
      WithoutLast(rest, items[n]);
      assert AsSet(rest + [items[n]]) - {items[n]} == AsSet(rest);
    }
  }

  /** Placing a new row where the binary search says keeps the buffer sorted. */
  lemma PlacingSorts(items: seq<Item>, d: Item, i: nat)
    requires NewestFirst(items) && forall x <- items :: x.arrival < d.arrival
    requires i <= |items| && (forall k | 0 <= k < i :: Newer(items[k], d)) && (i < |items| ==> Newer(d, items[i]))
    ensures items[..i] + [d] + items[i..] == Insert(items, d) && NewestFirst(Insert(items, d))
    ensures d !in items
  {
    InsertAt(items, d, i);
    InsertSorts(items, d);
  }

  /** The capped buffer follows the whole history. */
  lemma CappedHistory(received: seq<Item>, d: Item)
    requires InArrivalOrder(received) && forall x <- received :: x.arrival < d.arrival
    ensures InArrivalOrder(received + [d])
    ensures First(Insert(First(Ordered(received), MAXI), d), MAXI) == First(Ordered(received + [d]), MAXI)
  {
    assert (received + [d])[..|received|] == received;
    InsertCapped(Ordered(received), d, MAXI);
  }

  lemma PlacedOnDisplay(wrap: seq<Item>, d: Item, ref: Option<Item>)
    requires Distinct(wrap) && d !in wrap
    ensures Distinct(Before(wrap, d, ref)) && AsSet(Before(wrap, d, ref)) == AsSet(wrap) + {d}
    ensures AsSet(wrap) + {d} - {d} == AsSet(wrap)
  {
    BeforeKeeps(wrap, d, ref);
  }

  class LiveBuffer {
    var items: seq<Item>
    var wrap: seq<Item>
    /** The rows whose node is on display. */
    var nodes: set<Item>
    /** The arrival counter. */
    var arrivals: nat
    var passes: Item -> bool
    /** Everything received since the last reset. */
    ghost var received: seq<Item>

    ghost predicate Valid()
      reads this
    {
      && InArrivalOrder(received) && (forall d <- received :: d.arrival < arrivals)
      && items == First(Ordered(received), MAXI)
      && wrap == Shown(items, passes) && nodes == AsSet(wrap)
    }

    constructor (passes: Item -> bool)
      ensures Valid() && received == [] && this.passes == passes
    {
      items, wrap, nodes, arrivals, received := [], [], {}, 0, [];
      this.passes := passes;
    }

    /** Rows are newest first and were all received before `arrivals`. */
    lemma Sorted()
      requires Valid()
      ensures NewestFirst(items) && forall d <- items :: d.arrival < arrivals
    {
      OrderedSorts(received);
      OrderedMembers(received);
    }

    /** Binary search for the first row that is older than `d`. */
    method FindIdx(d: Item) returns (i: nat)
      requires NewestFirst(items) && forall x <- items :: x.arrival < d.arrival
      ensures i <= |items|
      ensures forall k | 0 <= k < i :: Newer(items[k], d)
      ensures forall k | i <= k < |items| :: Newer(d, items[k])
    {
      var lo, hi := 0, |items|;
      while lo < hi
        invariant 0 <= lo <= hi <= |items|
        invariant forall k | 0 <= k < lo :: Newer(items[k], d)
        invariant forall k | hi <= k < |items| :: Newer(d, items[k])
      {
        var mid := (lo + hi) / 2;
        var it := items[mid];
        if Newer(d, it) {
          hi := mid;
        } else {
          lo := mid + 1;
        }
      }
      i := lo;
    }

    /** Cap the display; drop from the oldest end. */
    method Trim()
      requires nodes == AsSet(wrap) && Distinct(wrap)
      modifies `wrap, `nodes
      ensures wrap == First(old(wrap), MAXD) && nodes == AsSet(wrap)
    {
      while |wrap| > MAXD
        invariant MAXD <= |wrap| <= |old(wrap)| || wrap == old(wrap)
        invariant wrap == old(wrap)[..|wrap|] && nodes == AsSet(wrap)
      {
        var last := wrap[|wrap| - 1];
        assert AsSet(wrap) - {last} == AsSet(wrap[..|wrap| - 1]);
        nodes := nodes - {last};
        wrap := wrap[..|wrap| - 1];
      }
    }

    /** Show the buffer from scratch. */
    method Rebuild()
      modifies `wrap, `nodes
      ensures wrap == Shown(items, passes) && nodes == AsSet(wrap)
    {
      wrap, nodes := [], {};
      var i := 0;
      while i < |items| && |wrap| < MAXD
        invariant i <= |items| && |wrap| <= MAXD
        invariant wrap == Passing(items[..i], passes) && nodes == AsSet(wrap)
      {
        var d := items[i];
        assert items[..i + 1][..i] == items[..i];
        if passes(d) {
          assert AsSet(wrap + [d]) == AsSet(wrap) + {d};
          nodes := nodes + {d};
          wrap := wrap + [d];
        }
        i := i + 1;
      }
      assert items == items[..i] + items[i..];
      PassingSplits(items[..i], items[i..], passes);
    }

    /** A kind switched on or off. */
    method Refilter(passes: Item -> bool)
      requires Valid()
      modifies `passes, `wrap, `nodes
      ensures Valid() && this.passes == passes
    {
      this.passes := passes;
      Rebuild();
    }

    /** The clear button and every reconnection. */
    method Reset()
      requires Valid()
      modifies `items, `wrap, `nodes, `received
      ensures Valid() && received == []
    {
      items, wrap, nodes, received := [], [], {}, [];
    }

    /** One row arrives: place it, show it if it passes, and evict the oldest row if the buffer is over its cap. */
    method Ingest(stamp: Stamp, kind: Kind, text: string)
      requires Valid()
      modifies `items, `wrap, `nodes, `arrivals, `received
      ensures Valid()
      ensures received == old(received) + [Item(stamp, old(arrivals), kind, text)]
    {
      Sorted();
      var d := Item(stamp, arrivals, kind, text);
      arrivals := arrivals + 1;
      var i := FindIdx(d);
      ghost var before := items;
      PlacingSorts(before, d, i);
      CappedHistory(received, d);
      received := received + [d];
      items := items[..i] + [d] + items[i..];
      Display(before, i, d);
      Evict();
    }

    /** Show the row just placed at position `i`, unless a filter hides it. */
    method Display(ghost before: seq<Item>, i: nat, d: Item)
      requires NewestFirst(before) && i <= |before| && items == before[..i] + [d] + before[i..] && d !in before
      requires wrap == Shown(before, passes) && nodes == AsSet(wrap)
      modifies `wrap, `nodes
      ensures wrap == Shown(items, passes) && nodes == AsSet(wrap)
    {
      if passes(d) {
        Show(before, i, d);
      } else {
        PassingAround(before, i, d, passes);
      }
    }

    /** Put the node of the row just placed at position `i` before the next row on display. */
    method Show(ghost before: seq<Item>, i: nat, d: Item)
      requires NewestFirst(before) && i <= |before| && items == before[..i] + [d] + before[i..]
      requires d !in before && passes(d) && wrap == Shown(before, passes) && nodes == AsSet(wrap)
      modifies `wrap, `nodes
      ensures wrap == Shown(items, passes) && nodes == AsSet(wrap)
    {
      PatchShows(before, i, d, passes);
      ShownDistinct(before, passes);
      PlacedOnDisplay(wrap, d, NextShown(before[i..], nodes));
      nodes := nodes + {d};
      var ref := NextNode(before, i, d);
      wrap := Before(wrap, d, ref);
      Trim();
    }

    /** The scan for the next row on display. */
    method NextNode(ghost before: seq<Item>, i: nat, d: Item) returns (ref: Option<Item>)
      requires i <= |before| && items == before[..i] + [d] + before[i..] && d !in before
      ensures ref == NextShown(before[i..], nodes - {d})
    {
      ref := None;
      var j := i + 1;
      assert items[j..] == before[i..];
      while j < |items| && ref.None?
        invariant i + 1 <= j <= |items|
        invariant NextShown(before[i..], nodes - {d}) == if ref.Some? then ref else NextShown(items[j..], nodes - {d})
      {
        assert items[j] == before[j - 1] && items[j..][1..] == items[j + 1..];
        if items[j] in nodes {
          ref := Some(items[j]);
        }
        j := j + 1;
      }
    }

    /** Drop the oldest row once over the cap, with its node if it has one. */
    method Evict()
      requires NewestFirst(items) && |items| <= MAXI + 1
      requires wrap == Shown(items, passes) && nodes == AsSet(wrap)
      modifies `items, `wrap, `nodes
      ensures items == First(old(items), MAXI) && wrap == Shown(items, passes) && nodes == AsSet(wrap)
    {
      if |items| > MAXI {
        EvictionShows(items, passes);
        var rm := items[|items| - 1];
        items := items[..|items| - 1];
        if rm in nodes {
          wrap := Without(wrap, rm);
          nodes := nodes - {rm};
        }
      }
    }
  }
}
