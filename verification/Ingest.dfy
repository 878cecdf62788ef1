/**
 The flusher: one transaction per batch stores the accepted events and bumps three kinds of counters;
 a statement may fail anywhere, and then the whole batch is rolled back.
 */
module Ingest {
  import opened Options
  import opened Tallies
  import opened Filters

  type Charge = (nat, string)

  /** A row of `events` with the template it refers to. */
  datatype Stored = Stored(event: Event, template: nat)

  datatype Template = Template(id: nat, text: string)

  datatype Tables = Tables(
    events: seq<Stored>, templates: map<string, Template>, hits: map<string, nat>,
    sources: map<string, nat>, stats: map<Charge, nat>)

  /** Template mining, of which nothing is assumed: fingerprint and template text of a program and a body. */
  type Miner = (Option<string>, string) -> (string, string)

  function Fingerprint(mine: Miner, e: Event): string {
    mine(e.program, e.body).0
  }

  function Fingerprints(mine: Miner, events: seq<Event>): seq<string> {
    seq(|events|, i requires 0 <= i < |events| => Fingerprint(mine, events[i]))
  }

  function Sources(events: seq<Event>): seq<string> {
    seq(|events|, i requires 0 <= i < |events| => events[i].source)
  }

  function EventsOf(rows: seq<Stored>): seq<Event> {
    seq(|rows|, i requires 0 <= i < |rows| => rows[i].event)
  }

  /** Each fingerprint has one template, and its own. */
  ghost predicate TemplatesOk(t: Tables, serial: nat) {
    && t.hits.Keys == t.templates.Keys
    && (forall f <- t.templates :: t.templates[f].id < serial)
    && (forall f, g | f in t.templates && g in t.templates && f != g :: t.templates[f].id != t.templates[g].id)
  }

  ghost predicate RefersToOwn(t: Tables, mine: Miner, row: Stored) {
    var f := Fingerprint(mine, row.event);
    f in t.templates && t.templates[f].id == row.template
  }

  /** Some event of the batch has this fingerprint and this template. */
  ghost predicate Mined(mine: Miner, batch: seq<Event>, f: string, text: string) {
    exists i :: 0 <= i < |batch| && mine(batch[i].program, batch[i].body) == (f, text)
  }

  /** No template is renumbered or reworded. */
  ghost predicate TemplatesKept(t: map<string, Template>, u: map<string, Template>) {
    forall f <- t :: f in u && u[f] == t[f]
  }

  /** The charges whose filter still exists. */
  function Kept(charges: seq<Charge>, existing: set<nat>): seq<Charge> {
    if charges == [] then []
    else Kept(charges[..|charges| - 1], existing) + if charges[|charges| - 1].0 in existing then [charges[|charges| - 1]] else []
  }

  lemma {:induction false} KeptCounts(charges: seq<Charge>, existing: set<nat>)
    ensures forall c :: multiset(Kept(charges, existing))[c] == if c.0 in existing then multiset(charges)[c] else 0
  {
    if charges != [] {
      KeptCounts(charges[..|charges| - 1], existing);
      assert charges == charges[..|charges| - 1] + [charges[|charges| - 1]];
    }
  }

  lemma {:induction false} KeptFewer(charges: seq<Charge>, existing: set<nat>)
    ensures |Kept(charges, existing)| <= |charges|
  {
    if charges != [] {
      KeptFewer(charges[..|charges| - 1], existing);
    }
  }

  lemma {:induction false} KeptAll(charges: seq<Charge>, existing: set<nat>)
    requires forall c <- charges :: c.0 in existing
    ensures Kept(charges, existing) == charges
  {
    if charges != [] {
      KeptAll(charges[..|charges| - 1], existing);
      assert charges == charges[..|charges| - 1] + [charges[|charges| - 1]];
    }
  }

  /** The counters a batch adds up. */
  ghost predicate BatchAdds(t: Tables, u: Tables, mine: Miner, batch: seq<Event>, dropped: map<Charge, nat>, existing: set<nat>) {
    && EventsOf(u.events) == EventsOf(t.events) + batch
    && t.events <= u.events
    && (forall f :: Tally(u.hits, f) == Tally(t.hits, f) + multiset(Fingerprints(mine, batch))[f])
    && (forall s :: Tally(u.sources, s) == Tally(t.sources, s) + multiset(Sources(batch))[s])
    && (forall c :: Tally(u.stats, c) == Tally(t.stats, c) + if c.0 in existing then Tally(dropped, c) else 0)
  }

  /** Adding up a counter `n` for the keys in `done`. */
  ghost predicate Upserted<K(!new)>(m: map<K, nat>, n: map<K, nat>, done: set<K>, m': map<K, nat>) {
    forall k :: Tally(m', k) == Tally(m, k) + if k in done then Tally(n, k) else 0
  }

  lemma UpsertedAll<K(!new)>(m: map<K, nat>, n: map<K, nat>, done: set<K>, m': map<K, nat>, keys: seq<K>)
    requires Upserted(m, n, done, m') && done == n.Keys && Counts(n, keys)
    ensures forall k :: Tally(m', k) == Tally(m, k) + multiset(keys)[k]
  {
    forall k ensures Tally(m', k) == Tally(m, k) + multiset(keys)[k] {
      assert Tally(n, k) == multiset(keys)[k];
      assert Tally(m', k) == Tally(m, k) + if k in done then Tally(n, k) else 0;
    }
  }

  lemma UpsertedMore<K(!new)>(m: map<K, nat>, n: map<K, nat>, done: set<K>, m': map<K, nat>, k: K)
    requires Upserted(m, n, done, m') && k in n && k !in done
    ensures Upserted(m, n, done + {k}, Added(m', k, n[k]))
  {
    forall j ensures Tally(Added(m', k, n[k]), j) == Tally(m, j) + if j in done + {k} then Tally(n, j) else 0 {
      assert Tally(m', j) == Tally(m, j) + if j in done then Tally(n, j) else 0;
    }
  }

  lemma FingerprintsGrow(mine: Miner, batch: seq<Event>, i: nat)
    requires i < |batch|
    ensures Fingerprints(mine, batch[..i + 1]) == Fingerprints(mine, batch[..i]) + [Fingerprint(mine, batch[i])]
  {
  }

  /** `ids` holds the numbers of these templates. */
  ghost predicate NumbersOf(t: Tables, fingerprints: set<string>, ids: map<string, nat>) {
    forall f <- fingerprints :: f in ids && f in t.templates && t.templates[f].id == ids[f]
  }

  /** `rows` are followed by the batch, each event with its template's number. */
  ghost predicate Numbered(mine: Miner, rows: seq<Stored>, rows': seq<Stored>, batch: seq<Event>, ids: map<string, nat>) {
    && rows <= rows' && |rows'| == |rows| + |batch|
    && forall i | 0 <= i < |batch| ::
         Fingerprint(mine, batch[i]) in ids && rows'[|rows| + i] == Stored(batch[i], ids[Fingerprint(mine, batch[i])])
  }

  lemma NumberedRefer(mine: Miner, t: Tables, u: Tables, batch: seq<Event>, ids: map<string, nat>, fingerprints: set<string>)
    requires (forall row <- t.events :: RefersToOwn(t, mine, row)) && TemplatesKept(t.templates, u.templates)
    requires Numbered(mine, t.events, u.events, batch, ids) && NumbersOf(u, fingerprints, ids)
    requires forall i | 0 <= i < |batch| :: Fingerprint(mine, batch[i]) in fingerprints
    ensures forall row <- u.events :: RefersToOwn(u, mine, row)
    ensures EventsOf(u.events) == EventsOf(t.events) + batch
  {
    forall k | 0 <= k < |u.events| ensures RefersToOwn(u, mine, u.events[k]) {
      if k < |t.events| {
        assert u.events[k] == t.events[k] && RefersToOwn(t, mine, t.events[k]);
      } else {
        assert u.events[|t.events| + (k - |t.events|)] ==
               Stored(batch[k - |t.events|], ids[Fingerprint(mine, batch[k - |t.events|])]);
      }
    }
  }

  lemma CountsAlong<K(!new)>(m: map<K, nat>, keys: seq<K>, m': map<K, nat>, more: seq<K>)
    requires Counts(m, keys) && forall k :: Tally(m', k) == Tally(m, k) + multiset(more)[k]
    ensures Counts(m', keys + more)
  {
    forall k ensures Tally(m', k) == multiset(keys + more)[k] {
      assert Tally(m, k) == multiset(keys)[k];
      assert Tally(m', k) == Tally(m, k) + multiset(more)[k];
    }
  }

  lemma KeysSplit(mine: Miner, a: seq<Event>, b: seq<Event>)
    ensures Fingerprints(mine, a + b) == Fingerprints(mine, a) + Fingerprints(mine, b)
    ensures Sources(a + b) == Sources(a) + Sources(b)
  {
  }

  lemma StatsKept(m: map<Charge, nat>, charged: seq<Charge>, m': map<Charge, nat>, dropped: map<Charge, nat>,
                  charges: seq<Charge>, existing: set<nat>)
    requires Counts(m, charged) && Counts(dropped, charges)
    requires forall c :: Tally(m', c) == Tally(m, c) + if c.0 in existing then Tally(dropped, c) else 0
    ensures Counts(m', charged + Kept(charges, existing))
  {
    KeptCounts(charges, existing);
    var kept := Kept(charges, existing);
    forall c ensures Tally(m', c) == Tally(m, c) + multiset(kept)[c] {
      assert Tally(dropped, c) == multiset(charges)[c];
    }
    CountsAlong(m, charged, m', kept);
  }

  /** A committed batch keeps all three counters in step with what they count. */
  lemma BooksKept(mine: Miner, t: Tables, u: Tables, batch: seq<Event>, dropped: map<Charge, nat>,
                  existing: set<nat>, charged: seq<Charge>, charges: seq<Charge>)
    requires BatchAdds(t, u, mine, batch, dropped, existing) && Counts(dropped, charges)
    requires Counts(t.hits, Fingerprints(mine, EventsOf(t.events))) && Counts(t.sources, Sources(EventsOf(t.events)))
    requires Counts(t.stats, charged)
    ensures Counts(u.hits, Fingerprints(mine, EventsOf(u.events))) && Counts(u.sources, Sources(EventsOf(u.events)))
    ensures Counts(u.stats, charged + Kept(charges, existing))
  {
    var before := EventsOf(t.events);
    KeysSplit(mine, before, batch);
    CountsAlong(t.hits, Fingerprints(mine, before), u.hits, Fingerprints(mine, batch));
    CountsAlong(t.sources, Sources(before), u.sources, Sources(batch));
    StatsKept(t.stats, charged, u.stats, dropped, charges, existing);
  }

  /** `texts` has a template for each of the first `i` events, and each is of some event. */
  ghost predicate TextsOf(mine: Miner, batch: seq<Event>, i: int, texts: map<string, string>) {
    && (forall k | 0 <= k < i && k < |batch| :: Fingerprint(mine, batch[k]) in texts)
    && forall f <- texts :: Mined(mine, batch, f, texts[f])
  }

  lemma TextsGrow(mine: Miner, batch: seq<Event>, i: nat, texts: map<string, string>)
    requires TextsOf(mine, batch, i, texts) && i < |batch|
    ensures var (f, text) := mine(batch[i].program, batch[i].body);
            TextsOf(mine, batch, i + 1, if f in texts then texts else texts[f := text])
  {
    var (f, text) := mine(batch[i].program, batch[i].body);
    assert Mined(mine, batch, f, text);
  }

  class Flusher {
    const mine: Miner
    const ingress: IngressFilterSet
    /** The tables as this connection sees them, and as they are committed. */
    var tables: Tables
    var committed: Tables
    /** The template numbers drawn; a rollback does not return them. */
    var serial: nat
    /** How many more statements succeed before one fails. */
    var budget: nat
    /** The charges committed, the events of committed batches, and the charges lost with deleted filters. */
    ghost var charged: seq<Charge>
    ghost var received: nat
    ghost var forgone: nat

    ghost predicate Valid()
      reads this, ingress
    {
      && ingress.Valid() && tables == committed && TemplatesOk(tables, serial)
      && (forall row <- tables.events :: RefersToOwn(tables, mine, row))
      && Counts(tables.hits, Fingerprints(mine, EventsOf(tables.events)))
      && Counts(tables.sources, Sources(EventsOf(tables.events)))
      && Counts(tables.stats, charged)
      && |tables.events| + |charged| + forgone == received
    }

    constructor (mine: Miner, ingress: IngressFilterSet)
      requires ingress.Valid()
      ensures Valid() && this.mine == mine && this.ingress == ingress && received == 0
    {
      this.mine, this.ingress := mine, ingress;
      tables, committed := Tables([], map[], map[], map[], map[]), Tables([], map[], map[], map[], map[]);
      serial, budget, charged, received, forgone := 0, 0, [], 0, 0;
    }

    /** The books balance: the counters of every kind add up to the events of the committed batches. */
    lemma Conservation()
      requires Valid()
      ensures Sum(tables.hits) == |tables.events| && Sum(tables.sources) == |tables.events|
      ensures |tables.events| + Sum(tables.stats) + forgone == received
    {
      CountsTotal(tables.hits, Fingerprints(mine, EventsOf(tables.events)));
      CountsTotal(tables.sources, Sources(EventsOf(tables.events)));
      CountsTotal(tables.stats, charged);
    }

    /** One statement: false when it fails. */
    method Statement() returns (ok: bool)
      modifies `budget
      ensures ok <==> old(budget) > 0
    {
      ok := budget > 0;
      if ok {
        budget := budget - 1;
      }
    }

    /** Count the batch by fingerprint and note each fingerprint's template. */
    method CountTemplates(batch: seq<Event>) returns (counts: map<string, nat>, texts: map<string, string>)
      ensures Counts(counts, Fingerprints(mine, batch)) && texts.Keys == counts.Keys
      ensures forall i | 0 <= i < |batch| :: Fingerprint(mine, batch[i]) in texts
      ensures forall f <- texts :: Mined(mine, batch, f, texts[f])
    {
      counts, texts := map[], map[];
      for i := 0 to |batch|
        invariant Counts(counts, Fingerprints(mine, batch[..i]))
        invariant TextsOf(mine, batch, i, texts) && texts.Keys == counts.Keys
      {
        hide Counts;
        var (f, text) := mine(batch[i].program, batch[i].body);
        FingerprintsGrow(mine, batch, i);
        CountsOneMore(counts, Fingerprints(mine, batch[..i]), f);
        counts := Added(counts, f, 1);
        TextsGrow(mine, batch, i, texts);
        if f !in texts {
          texts := texts[f := text];
        }
      }
      assert batch[..|batch|] == batch;
    }

    /** Insert one template, or add to its hits. */
    method UpsertTemplate(f: string, text: string, n: nat) returns (ok: bool, id: nat)
      requires TemplatesOk(tables, serial)
      modifies `tables, `serial, `budget
      ensures serial >= old(serial)
      ensures ok ==>
                && tables == old(tables).(templates := tables.templates, hits := Added(old(tables).hits, f, n))
                && TemplatesOk(tables, serial) && TemplatesKept(old(tables).templates, tables.templates)
                && f in tables.templates && tables.templates[f].id == id
                && (f !in old(tables).templates ==> tables.templates[f].text == text)
    {
      ok := Statement();
      if !ok {
        return false, 0;
      }
      if f !in tables.templates {
        tables := tables.(templates := tables.templates[f := Template(serial, text)], hits := Added(tables.hits, f, n));
        serial := serial + 1;
      } else {
        tables := tables.(hits := Added(tables.hits, f, n));
      }
      id := tables.templates[f].id;
    }

    /** Insert the templates, or add to their hits. */
    method UpsertTemplates(counts: map<string, nat>, texts: map<string, string>) returns (ok: bool, ids: map<string, nat>)
      requires texts.Keys == counts.Keys && TemplatesOk(tables, serial)
      modifies `tables, `serial, `budget
      ensures serial >= old(serial)
      ensures ok ==>
                && tables == old(tables).(templates := tables.templates, hits := tables.hits)
                && TemplatesOk(tables, serial) && TemplatesKept(old(tables).templates, tables.templates)
                && Upserted(old(tables).hits, counts, counts.Keys, tables.hits)
                && NumbersOf(tables, texts.Keys, ids)
    {
      ids := map[];
      var rest := texts.Keys;
      while rest != {}
        invariant rest <= texts.Keys && serial >= old(serial)
        invariant tables == old(tables).(templates := tables.templates, hits := tables.hits)
        invariant TemplatesOk(tables, serial) && TemplatesKept(old(tables).templates, tables.templates)
        invariant Upserted(old(tables).hits, counts, counts.Keys - rest, tables.hits)
        invariant NumbersOf(tables, texts.Keys - rest, ids)
      {
        var f :| f in rest;
        ghost var before := tables.hits;
        var id;
        ok, id := UpsertTemplate(f, texts[f], counts[f]);
        if !ok {
          return;
        }
        UpsertedMore(old(tables).hits, counts, counts.Keys - rest, before, f);
        assert counts.Keys - rest + {f} == counts.Keys - (rest - {f});
        ids := ids[f := id];
        rest := rest - {f};
      }
      ok := true;
    }

    /** Insert the events, each with its template's number. */
    method InsertEvents(batch: seq<Event>, ids: map<string, nat>) returns (ok: bool)
      requires forall i | 0 <= i < |batch| :: Fingerprint(mine, batch[i]) in ids
      modifies `tables, `budget
      ensures ok ==> tables == old(tables).(events := tables.events) && Numbered(mine, old(tables).events, tables.events, batch, ids)
    {
      var i := 0;
      while i < |batch|
        invariant i <= |batch| && tables == old(tables).(events := tables.events)
        invariant Numbered(mine, old(tables).events, tables.events, batch[..i], ids)
      {
        ok := Statement();
        if !ok {
          return;
        }
        tables := tables.(events := tables.events + [Stored(batch[i], ids[Fingerprint(mine, batch[i])])]);
        i := i + 1;
      }
      assert batch[..i] == batch;
      ok := true;
    }

    /** Count the batch by source. */
    method CountSources(batch: seq<Event>) returns (seen: map<string, nat>)
      ensures Counts(seen, Sources(batch))
    {
      seen := map[];
      for i := 0 to |batch|
        invariant Counts(seen, Sources(batch[..i]))
      {
        CountsOneMore(seen, Sources(batch[..i]), batch[i].source);
        assert Sources(batch[..i + 1]) == Sources(batch[..i]) + [batch[i].source];
        seen := Added(seen, batch[i].source, 1);
      }
      assert batch[..|batch|] == batch;
    }

    method UpsertSources(seen: map<string, nat>) returns (ok: bool)
      modifies `tables, `budget
      ensures ok ==> tables == old(tables).(sources := tables.sources)
                     && Upserted(old(tables).sources, seen, seen.Keys, tables.sources)
    {
      var rest := seen.Keys;
      while rest != {}
        invariant rest <= seen.Keys && tables == old(tables).(sources := tables.sources)
        invariant Upserted(old(tables).sources, seen, seen.Keys - rest, tables.sources)
      {
        var s :| s in rest;
        ok := Statement();
        if !ok {
          return;
        }
        tables := tables.(sources := Added(tables.sources, s, seen[s]));
        rest := rest - {s};
      }
      ok := true;
    }

    /** Add the drop counts, except those of filters that no longer exist. */
    method UpsertStats(dropped: map<Charge, nat>, existing: set<nat>) returns (ok: bool)
      modifies `tables, `budget
      ensures ok ==>
                && tables == old(tables).(stats := tables.stats)
                && forall c :: Tally(tables.stats, c) ==
                               Tally(old(tables).stats, c) + if c.0 in existing then Tally(dropped, c) else 0
    {
      var rest := dropped.Keys;
      while rest != {}
        invariant rest <= dropped.Keys && tables == old(tables).(stats := tables.stats)
        invariant forall c :: Tally(tables.stats, c) ==
                              Tally(old(tables).stats, c)
                              + if c.0 in existing && c in dropped && c !in rest then dropped[c] else 0
      {
        var c :| c in rest;
        ok := Statement();
        if !ok {
          return;
        }
        if c.0 in existing {
          tables := tables.(stats := Added(tables.stats, c, dropped[c]));
        }
        rest := rest - {c};
      }
      ok := true;
    }

    /** The first half of `flush`: the templates, then the events that refer to them. */
    method Store(batch: seq<Event>) returns (ok: bool)
      requires TemplatesOk(tables, serial) && forall row <- tables.events :: RefersToOwn(tables, mine, row)
      modifies `tables, `serial, `budget
      ensures serial >= old(serial)
      ensures ok ==>
                && tables == old(tables).(templates := tables.templates, hits := tables.hits, events := tables.events)
                && TemplatesOk(tables, serial) && (forall row <- tables.events :: RefersToOwn(tables, mine, row))
                && TemplatesKept(old(tables).templates, tables.templates) && old(tables).events <= tables.events
                && EventsOf(tables.events) == EventsOf(old(tables).events) + batch
                && forall f :: Tally(tables.hits, f) == Tally(old(tables).hits, f) + multiset(Fingerprints(mine, batch))[f]
    {
      var counts, texts := CountTemplates(batch);
      var ids;
      ok, ids := UpsertTemplates(counts, texts);
      if !ok {
        return;
      }
      UpsertedAll(old(tables).hits, counts, counts.Keys, tables.hits, Fingerprints(mine, batch));
      ok := InsertEvents(batch, ids);
      if !ok {
        return;
      }
      NumberedRefer(mine, old(tables), tables, batch, ids, texts.Keys);
    }

    /** `flush`: all of it and a commit, or a failure. */
    method Flush(batch: seq<Event>, dropped: map<Charge, nat>, existing: set<nat>) returns (ok: bool)
      requires tables == committed && TemplatesOk(tables, serial)
      requires forall row <- tables.events :: RefersToOwn(tables, mine, row)
      modifies `tables, `committed, `serial, `budget
      ensures serial >= old(serial)
      ensures !ok ==> committed == old(committed)
      ensures ok ==>
                && tables == committed && TemplatesOk(tables, serial)
                && (forall row <- tables.events :: RefersToOwn(tables, mine, row))
                && TemplatesKept(old(tables).templates, tables.templates)
                && BatchAdds(old(tables), tables, mine, batch, dropped, existing)
    {
      if batch == [] && dropped == map[] {
        return true;
      }
      ok := Store(batch);
      if !ok {
        return;
      }
      var seen := CountSources(batch);
      ok := UpsertSources(seen);
      if !ok {
        return;
      }
      UpsertedAll(old(tables).sources, seen, seen.Keys, tables.sources, Sources(batch));
      ok := UpsertStats(dropped, existing);
      if !ok {
        return;
      }
      ok := Statement();
      if ok {
        committed := tables;
      }
    }

    /** One turn of the flusher: filter what was received, flush it, and roll back if that fails; the
        accepted events go to the router only if it succeeds. */
    method FlushBatch(events: seq<Event>, existing: set<nat>) returns (ok: bool, routed: seq<Event>)
      requires Valid()
      modifies `tables, `committed, `serial, `budget, `charged, `received, `forgone
      ensures Valid()
      ensures !ok ==>
                && routed == [] && tables == old(tables)
                && charged == old(charged) && received == old(received) && forgone == old(forgone)
      ensures (forall f <- ingress.filters :: f.id in existing) ==> forgone == old(forgone)
      ensures ok ==>
                && received == old(received) + |events| && routed == Accepted(ingress.live, ingress.filters, events)
                && EventsOf(tables.events) == EventsOf(old(tables).events) + routed
                && charged == old(charged) + Kept(Charges(ingress.live, ingress.filters, events), existing)
    {
      var batch, dropped := ingress.Partition(events);
      ok := Flush(batch, dropped, existing);
      if !ok {
        tables, routed := committed, [];
        return;
      }
      routed := batch;
      ghost var charges := Charges(ingress.live, ingress.filters, events);
      BooksKept(mine, old(tables), tables, batch, dropped, existing, charged, charges);
      SplitSizes(ingress.live, ingress.filters, events);
      KeptFewer(charges, existing);
      if forall f <- ingress.filters :: f.id in existing {
        ChargedIsFilter(ingress.live, ingress.filters, events);
        KeptAll(charges, existing);
      }
      charged := charged + Kept(charges, existing);
      received := received + |events|;
      forgone := forgone + |charges| - |Kept(charges, existing)|;
    }
  }
}
