/**
 Ingress filters: the globs an operator may write, what a filter matches live and in history, and how a
 batch is split into accepted events and drop counts.
 */
module Filters {
  import opened Options
  import opened Globs
  import opened Tallies

  datatype Event = Event(source: string, program: Option<string>, severity: Option<int>, body: string)

  datatype MatchType = Substring | Regex

  /** A row of `ingress_filters`; an empty glob accepts everything, and a row written past the validation may have
      brackets in its globs. */
  datatype Filter = Filter(
    id: nat, matchType: MatchType, pattern: string, sourceGlob: string, programGlob: string, caseSensitive: bool)
  {
    predicate Clean() {
      BracketFree(sourceGlob) && BracketFree(programGlob)
    }
  }

  /** A text engine, of which nothing is assumed: which regular expressions it compiles, where they are found,
      containment after folding case, and what a glob with brackets accepts.  The arguments are the pattern, case
      sensitivity and the text. */
  datatype Engine = Engine(
    compiles: (string, bool) -> bool, finds: (string, bool, string) -> bool, folded: (string, string) -> bool,
    brackets: (string, string) -> bool)

  function Text(s: Option<string>): string {
    if s.Some? then s.value else ""
  }

  // ----- _clean_glob -----

  datatype GlobError = TooLong | IsList | HasSpace | HasBracket

  const MAX_GLOB_LEN := 255

  function DropSpaces(s: string, space: char -> bool): string {
    if s != [] && space(s[0]) then DropSpaces(s[1..], space) else s
  }

  function Trimmed(s: string, space: char -> bool): string {
    if s != [] && space(s[|s| - 1]) then Trimmed(s[..|s| - 1], space) else s
  }

  /** Normalise a glob, or say why it is not one; `space` is `str.isspace`. */
  function CleanGlob(value: Option<string>, space: char -> bool): Result<string, GlobError> {
    var glob := Trimmed(DropSpaces(Text(value), space), space);
    if |glob| > MAX_GLOB_LEN then Err(TooLong)
    else if ',' in glob then Err(IsList)
    else if exists c <- glob :: space(c) then Err(HasSpace)
    else if '[' in glob || ']' in glob then Err(HasBracket)
    else Ok(glob)
  }

  /** A glob that a filter may hold. */
  ghost predicate Acceptable(glob: string, space: char -> bool) {
    |glob| <= MAX_GLOB_LEN && BracketFree(glob) && ',' !in glob && forall c <- glob :: !space(c)
  }

  ghost predicate Blank(s: string, space: char -> bool) {
    forall c <- s :: space(c)
  }

  lemma {:induction false} DropSpacesSplits(s: string, space: char -> bool) returns (a: string)
    ensures s == a + DropSpaces(s, space) && Blank(a, space)
    ensures DropSpaces(s, space) != [] ==> !space(DropSpaces(s, space)[0])
  {
    if s != [] && space(s[0]) {
      a := DropSpacesSplits(s[1..], space);
      a := [s[0]] + a;
    } else {
      a := [];
    }
  }

  lemma {:induction false} TrimmedSplits(s: string, space: char -> bool) returns (b: string)
    ensures s == Trimmed(s, space) + b && Blank(b, space)
  {
    if s != [] && space(s[|s| - 1]) {
      b := TrimmedSplits(s[..|s| - 1], space);
      b := b + [s[|s| - 1]];
    } else {
      b := [];
    }
  }

  lemma {:induction false} TrimmedDrops(g: string, b: string, space: char -> bool)
    requires Blank(b, space) && (forall c <- g :: !space(c))
    ensures Trimmed(g + b, space) == g
  {
    if b != [] {
      assert (g + b)[..|g + b| - 1] == g + b[..|b| - 1];
      TrimmedDrops(g, b[..|b| - 1], space);
    } else {
      assert g + b == g;
    }
  }

  lemma {:induction false} DropSpacesDrops(a: string, g: string, space: char -> bool)
    requires Blank(a, space) && (g != [] ==> !space(g[0]))
    ensures DropSpaces(a + g, space) == g
  {
    if a != [] {
      assert (a + g)[1..] == a[1..] + g;
      DropSpacesDrops(a[1..], g, space);
    } else {
      assert a + g == g;
    }
  }

  lemma {:induction false} AllBlank(s: string, space: char -> bool)
    requires Blank(s, space)
    ensures DropSpaces(s, space) == []
  {
    if s != [] {
      AllBlank(s[1..], space);
    }
  }

  lemma CleanGlobAccepts(value: Option<string>, a: string, glob: string, b: string, space: char -> bool)
    requires Text(value) == a + glob + b && Blank(a, space) && Blank(b, space) && Acceptable(glob, space)
    ensures CleanGlob(value, space) == Ok(glob)
  {
    if glob == [] {
      assert a + glob + b == a + b;
      AllBlank(Text(value), space);
    } else {
      assert a + glob + b == a + (glob + b);
      DropSpacesDrops(a, glob + b, space);
      TrimmedDrops(glob, b, space);
    }
  }

  lemma CleanGlobYields(value: Option<string>, glob: string, space: char -> bool) returns (a: string, b: string)
    requires CleanGlob(value, space) == Ok(glob)
    ensures Text(value) == a + glob + b && Blank(a, space) && Blank(b, space) && Acceptable(glob, space)
  {
    a := DropSpacesSplits(Text(value), space);
    b := TrimmedSplits(DropSpaces(Text(value), space), space);
    assert a + (glob + b) == a + glob + b;
  }

  /** `text` is `glob` between blanks. */
  ghost predicate Padded(text: string, a: string, glob: string, b: string, space: char -> bool) {
    text == a + glob + b && Blank(a, space) && Blank(b, space)
  }

  /** Cleaning yields a glob just when the text is that glob between blanks. */
  lemma CleanGlobMeans(value: Option<string>, glob: string, space: char -> bool)
    ensures CleanGlob(value, space) == Ok(glob) <==>
              Acceptable(glob, space) && exists a, b :: Padded(Text(value), a, glob, b, space)
  {
    if CleanGlob(value, space) == Ok(glob) {
      var a, b := CleanGlobYields(value, glob, space);
      assert Padded(Text(value), a, glob, b, space);
    }
    if Acceptable(glob, space) {
      forall a, b | Padded(Text(value), a, glob, b, space) ensures CleanGlob(value, space) == Ok(glob) {
        CleanGlobAccepts(value, a, glob, b, space);
      }
    }
  }

  // ----- matching -----

  predicate OccursAt(s: string, pattern: string, i: int) {
    0 <= i <= |s| - |pattern| && s[i..i + |pattern|] == pattern
  }

  predicate Contains(s: string, pattern: string) {
    exists i :: 0 <= i <= |s| && OccursAt(s, pattern, i)
  }

  /** `strpos`: the first position, counted from one, or zero. */
  function StrPos(s: string, pattern: string): nat {
    if pattern <= s then 1
    else if s == [] then 0
    else
      var p := StrPos(s[1..], pattern);
      if p == 0 then 0 else p + 1
  }

  predicate GlobAccepts(live: Engine, glob: string, s: string) {
    glob == "" || if BracketFree(glob) then Glob(glob, s) else live.brackets(glob, s)
  }

  predicate GlobsAccept(live: Engine, f: Filter, e: Event) {
    GlobAccepts(live, f.sourceGlob, e.source) && GlobAccepts(live, f.programGlob, Text(e.program))
  }

  predicate LiveBody(live: Engine, f: Filter, body: string) {
    if f.matchType == Regex then live.finds(f.pattern, f.caseSensitive, body)
    else if f.caseSensitive then Contains(body, f.pattern)
    else live.folded(f.pattern, body)
  }

  /** `CompiledIngressFilter.matches`. */
  predicate Matches(live: Engine, f: Filter, e: Event) {
    GlobsAccept(live, f, e) && LiveBody(live, f, e.body)
  }

  predicate SqlBody(sql: Engine, f: Filter, body: string) {
    if f.matchType == Substring then
      if f.caseSensitive then StrPos(body, f.pattern) > 0 else sql.folded(f.pattern, body)
    else sql.finds(f.pattern, f.caseSensitive, body)
  }

  /** The predicate of the preview and purge queries, on a stored row. */
  predicate Historical(sql: Engine, f: Filter, e: Event) {
    && SqlBody(sql, f, e.body)
    && (f.sourceGlob == "" || Like(LikePattern(f.sourceGlob), e.source))
    && (f.programGlob == "" || Like(LikePattern(f.programGlob), Text(e.program)))
  }

  lemma OccursLater(s: string, pattern: string, i: int)
    requires s != [] && 0 <= i
    ensures OccursAt(s, pattern, i + 1) <==> OccursAt(s[1..], pattern, i)
  {
    if i <= |s| - 1 - |pattern| {
      assert s[i + 1..i + 1 + |pattern|] == s[1..][i..i + |pattern|];
    }
  }

  lemma {:induction false} StrPosContains(s: string, pattern: string)
    ensures StrPos(s, pattern) > 0 <==> Contains(s, pattern)
  {
    assert pattern <= s <==> OccursAt(s, pattern, 0);
    if s != [] {
      StrPosContains(s[1..], pattern);
      forall i | 0 <= i ensures OccursAt(s, pattern, i + 1) <==> OccursAt(s[1..], pattern, i) {
        OccursLater(s, pattern, i);
      }
      if i :| 0 < i <= |s| && OccursAt(s, pattern, i) {
        OccursLater(s, pattern, i - 1);
      }
      if i :| 0 <= i <= |s[1..]| && OccursAt(s[1..], pattern, i) {
        assert OccursAt(s, pattern, i + 1);
      }
    }
  }

  /** Live and history agree on an event just when the globs reject it or the two engines agree on its body;
      for a case-sensitive substring they always agree. */
  lemma LiveIsHistorical(live: Engine, sql: Engine, f: Filter, e: Event)
    requires f.Clean()
    ensures (Matches(live, f, e) <==> Historical(sql, f, e)) <==>
            (!GlobsAccept(live, f, e) || (LiveBody(live, f, e.body) <==> SqlBody(sql, f, e.body)))
    ensures f.matchType == Substring && f.caseSensitive ==> (Matches(live, f, e) <==> Historical(sql, f, e))
  {
    GlobIsLike(f.sourceGlob, e.source);
    GlobIsLike(f.programGlob, Text(e.program));
    StrPosContains(e.body, f.pattern);
  }

  // ----- the filter set -----

  /** The first filter that matches. */
  function FirstMatch(live: Engine, filters: seq<Filter>, e: Event): Option<Filter> {
    if filters == [] then None
    else if Matches(live, filters[0], e) then Some(filters[0])
    else FirstMatch(live, filters[1..], e)
  }

  lemma {:induction false} FirstMatchMeans(live: Engine, filters: seq<Filter>, e: Event)
    ensures var r := FirstMatch(live, filters, e);
            if r.None? then forall f <- filters :: !Matches(live, f, e)
            else exists i :: 0 <= i < |filters| && filters[i] == r.value && Matches(live, filters[i], e)
                             && forall j | 0 <= j < i :: !Matches(live, filters[j], e)
  {
    if filters != [] {
      assert filters == [filters[0]] + filters[1..];
      if !Matches(live, filters[0], e) {
        FirstMatchMeans(live, filters[1..], e);
        var r := FirstMatch(live, filters[1..], e);
        if r.Some? {
          var i :| 0 <= i < |filters[1..]| && filters[1..][i] == r.value && Matches(live, filters[1..][i], e)
                   && forall j | 0 <= j < i :: !Matches(live, filters[1..][j], e);
          forall j | 0 <= j < i + 1 ensures !Matches(live, filters[j], e) {
            assert j > 0 ==> filters[j] == filters[1..][j - 1];
          }
          assert filters[i + 1] == r.value;
        }
      } else {
        assert filters[0] == FirstMatch(live, filters, e).value;
      }
    }
  }

  /** The counter a dropped event is charged to. */
  function DropKey(f: Filter, e: Event): (nat, string) {
    (f.id, if e.source != "" then e.source else "?")
  }

  function Accepted(live: Engine, filters: seq<Filter>, events: seq<Event>): seq<Event> {
    if events == [] then []
    else
      var last := events[|events| - 1];
      Accepted(live, filters, events[..|events| - 1]) + if FirstMatch(live, filters, last).None? then [last] else []
  }

  function Dropped(live: Engine, filters: seq<Filter>, events: seq<Event>): seq<Event> {
    if events == [] then []
    else
      var last := events[|events| - 1];
      Dropped(live, filters, events[..|events| - 1]) + if FirstMatch(live, filters, last).Some? then [last] else []
  }

  /** The charges for the dropped events, in their order. */
  function Charges(live: Engine, filters: seq<Filter>, events: seq<Event>): seq<(nat, string)> {
    if events == [] then []
    else
      var last := events[|events| - 1];
      var first := FirstMatch(live, filters, last);
      Charges(live, filters, events[..|events| - 1]) + if first.Some? then [DropKey(first.value, last)] else []
  }

  lemma {:induction false} SplitSizes(live: Engine, filters: seq<Filter>, events: seq<Event>)
    ensures |Charges(live, filters, events)| == |Dropped(live, filters, events)|
    ensures |Accepted(live, filters, events)| + |Charges(live, filters, events)| == |events|
  {
    if events != [] {
      SplitSizes(live, filters, events[..|events| - 1]);
    }
  }

  lemma {:induction false} SplitMembers(live: Engine, filters: seq<Filter>, events: seq<Event>)
    ensures multiset(Accepted(live, filters, events)) + multiset(Dropped(live, filters, events)) == multiset(events)
  {
    if events != [] {
      var rest, last := events[..|events| - 1], events[|events| - 1];
      SplitMembers(live, filters, rest);
      assert events == rest + [last];
      if FirstMatch(live, filters, last).None? {
        assert Accepted(live, filters, events) == Accepted(live, filters, rest) + [last];
        assert Dropped(live, filters, events) == Dropped(live, filters, rest);
      } else {
        assert Accepted(live, filters, events) == Accepted(live, filters, rest);
        assert Dropped(live, filters, events) == Dropped(live, filters, rest) + [last];
      }
    }
  }

  /** Nothing is lost or invented: every event is accepted or charged, once. */
  lemma SplitConserves(live: Engine, filters: seq<Filter>, events: seq<Event>)
    ensures multiset(Accepted(live, filters, events)) + multiset(Dropped(live, filters, events)) == multiset(events)
    ensures |Charges(live, filters, events)| == |Dropped(live, filters, events)|
    ensures |Accepted(live, filters, events)| + |Charges(live, filters, events)| == |events|
  {
    SplitMembers(live, filters, events);
    SplitSizes(live, filters, events);
  }

  /** A dropped event is charged to the first filter that matches it. */
  lemma {:induction false} ChargedToFirst(live: Engine, filters: seq<Filter>, events: seq<Event>, k: nat)
    requires k < |Dropped(live, filters, events)| && k < |Charges(live, filters, events)|
    ensures var e := Dropped(live, filters, events)[k];
            FirstMatch(live, filters, e).Some?
            && Charges(live, filters, events)[k] == DropKey(FirstMatch(live, filters, e).value, e)
  {
    var rest := events[..|events| - 1];
    SplitSizes(live, filters, rest);
    if k < |Dropped(live, filters, rest)| {
      ChargedToFirst(live, filters, rest, k);
    }
  }

  /** Only filters of the set are charged. */
  lemma {:induction false} ChargedIsFilter(live: Engine, filters: seq<Filter>, events: seq<Event>)
    ensures forall c <- Charges(live, filters, events) :: exists f <- filters :: f.id == c.0
  {
    if events != [] {
      ChargedIsFilter(live, filters, events[..|events| - 1]);
      FirstMatchMeans(live, filters, events[|events| - 1]);
    }
  }

  /** The accepted events keep their order. */
  lemma {:induction false} AcceptedSplits(live: Engine, filters: seq<Filter>, a: seq<Event>, b: seq<Event>)
    ensures Accepted(live, filters, a + b) == Accepted(live, filters, a) + Accepted(live, filters, b)
  {
    if b == [] {
      assert a + b == a;
    } else {
      assert (a + b)[..|a + b| - 1] == a + b[..|b| - 1];
      AcceptedSplits(live, filters, a, b[..|b| - 1]);
    }
  }

  class IngressFilterSet {
    const live: Engine
    /** The compiled filters, in the order they are tried. */
    var filters: seq<Filter>
    var rejected: seq<nat>

    ghost predicate Valid()
      reads this
    {
      forall f <- filters :: Compiles(f)
    }

    predicate Compiles(f: Filter) {
      f.matchType == Regex ==> live.compiles(f.pattern, f.caseSensitive)
    }

    constructor (live: Engine)
      ensures Valid() && filters == [] && this.live == live
    {
      this.live, filters, rejected := live, [], [];
    }

    /** Take the enabled rows, in order, leaving out those whose expression does not compile. */
    method Reload(rows: seq<Filter>)
      modifies this
      ensures Valid()
      ensures filters == Compiled(rows) && |filters| + |rejected| == |rows|
      ensures forall f <- rows :: if Compiles(f) then f in filters else f.id in rejected
    {
      var compiled, bad := [], [];
      for i := 0 to |rows|
        invariant compiled == Compiled(rows[..i]) && |compiled| + |bad| == i
        invariant forall f <- compiled :: Compiles(f)
        invariant forall f <- rows[..i] :: if Compiles(f) then f in compiled else f.id in bad
      {
        assert rows[..i + 1][..i] == rows[..i];
        if Compiles(rows[i]) {
          compiled := compiled + [rows[i]];
        } else {
          bad := bad + [rows[i].id];
        }
      }
      assert rows[..|rows|] == rows;
      filters, rejected := compiled, bad;
    }

    function Compiled(rows: seq<Filter>): seq<Filter> {
      if rows == [] then []
      else Compiled(rows[..|rows| - 1]) + if Compiles(rows[|rows| - 1]) then [rows[|rows| - 1]] else []
    }

    method Match(e: Event) returns (r: Option<Filter>)
      requires Valid()
      ensures r == FirstMatch(live, filters, e)
    {
      for i := 0 to |filters|
        invariant FirstMatch(live, filters, e) == FirstMatch(live, filters[i..], e)
      {
        if Matches(live, filters[i], e) {
          return Some(filters[i]);
        }
      }
      r := None;
    }

    method Partition(events: seq<Event>) returns (accepted: seq<Event>, dropped: map<(nat, string), nat>)
      requires Valid()
      ensures accepted == Accepted(live, filters, events)
      ensures Counts(dropped, Charges(live, filters, events))
    {
      accepted, dropped := [], map[];
      for i := 0 to |events|
        invariant accepted == Accepted(live, filters, events[..i])
        invariant Counts(dropped, Charges(live, filters, events[..i]))
      {
        assert events[..i + 1][..i] == events[..i];
        var matched := Match(events[i]);
        if matched.None? {
          accepted := accepted + [events[i]];
        } else {
          CountsOneMore(dropped, Charges(live, filters, events[..i]), DropKey(matched.value, events[i]));
          dropped := Added(dropped, DropKey(matched.value, events[i]), 1);
        }
      }
      assert events[..|events|] == events;
    }
  }
}
