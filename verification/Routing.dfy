/**
 Regex rules: how a ruleset is compiled from the tables, and which targets one event is dispatched to.
 */
module Routing {
  import opened Filters

  datatype Target = Target(id: int, name: string, kind: string)

  /** A row of `alert_rules`, and what the ruleset compiles from it. */
  datatype RuleRow = RuleRow(id: int, pattern: string, sourceGlob: string, minSeverity: int, stopOnMatch: bool)

  /** A row of `rule_targets` joined with its target. */
  datatype Binding = Binding(rule: int, target: Target)

  datatype Rule = Rule(row: RuleRow, targets: seq<Target>)

  /** One spawned task: the context is the rule's, built for the event. */
  datatype Dispatch = Dispatch(rule: Rule, event: Event, target: Target)

  /** Glob and regular expression matching, of which nothing is assumed. */
  datatype Matcher = Matcher(compiles: string -> bool, glob: (string, string) -> bool, search: (string, Event) -> bool)

  /** The gates in the order of the loop: severity, source, expression. */
  predicate Fires(m: Matcher, rule: Rule, e: Event) {
    && (rule.row.minSeverity == 0 || (e.severity.Some? && e.severity.value >= rule.row.minSeverity))
    && (rule.row.sourceGlob == "" || m.glob(rule.row.sourceGlob, e.source))
    && m.search(rule.row.pattern, e)
  }

  function Ids(dispatches: seq<Dispatch>): set<int> {
    set d | d in dispatches :: d.target.id
  }

  /** One rule's dispatches, to the targets not served yet. */
  function Fresh(rule: Rule, e: Event, targets: seq<Target>, served: set<int>): seq<Dispatch> {
    if targets == [] then []
    else if targets[0].id in served then Fresh(rule, e, targets[1..], served)
    else [Dispatch(rule, e, targets[0])] + Fresh(rule, e, targets[1..], served + {targets[0].id})
  }

  /** All dispatches of an event, given the targets served already. */
  function Routed(m: Matcher, rules: seq<Rule>, e: Event, served: set<int>): seq<Dispatch> {
    if rules == [] then []
    else if !Fires(m, rules[0], e) then Routed(m, rules[1..], e, served)
    else
      var here := Fresh(rules[0], e, rules[0].targets, served);
      here + if rules[0].row.stopOnMatch then [] else Routed(m, rules[1..], e, served + Ids(here))
  }

  // ----- what that means -----

  /** Rule `i` matches and no terminal rule before it does. */
  predicate Reached(m: Matcher, rules: seq<Rule>, e: Event, i: int) {
    && 0 <= i < |rules| && Fires(m, rules[i], e)
    && forall j | 0 <= j < i :: !(Fires(m, rules[j], e) && rules[j].row.stopOnMatch)
  }

  predicate Bound(rule: Rule, id: int) {
    exists t <- rule.targets :: t.id == id
  }

  /** Rule `i` is the first one reached that is bound to the target. */
  predicate Chosen(m: Matcher, rules: seq<Rule>, e: Event, id: int, i: int) {
    && Reached(m, rules, e, i) && Bound(rules[i], id)
    && forall j | 0 <= j < i :: !(Reached(m, rules, e, j) && Bound(rules[j], id))
  }

  ghost predicate OncePerTarget(dispatches: seq<Dispatch>) {
    forall j, k | 0 <= j < k < |dispatches| :: dispatches[j].target.id != dispatches[k].target.id
  }

  lemma {:induction false} FreshMeans(rule: Rule, e: Event, targets: seq<Target>, served: set<int>)
    ensures var ds := Fresh(rule, e, targets, served);
            && (forall d <- ds :: d.rule == rule && d.event == e && d.target in targets && d.target.id !in served)
            && (forall t <- targets :: t.id in served || t.id in Ids(ds))
            && OncePerTarget(ds)
  {
    if targets != [] {
      var more := if targets[0].id in served then served else served + {targets[0].id};
      FreshMeans(rule, e, targets[1..], more);
      assert targets == [targets[0]] + targets[1..];
      var rest := Fresh(rule, e, targets[1..], more);
      assert Ids([Dispatch(rule, e, targets[0])] + rest) == {targets[0].id} + Ids(rest);
    }
  }

  lemma ReachedLater(m: Matcher, rules: seq<Rule>, e: Event, i: int)
    requires rules != [] && !(Fires(m, rules[0], e) && rules[0].row.stopOnMatch) && 0 <= i
    ensures Reached(m, rules, e, i + 1) <==> Reached(m, rules[1..], e, i)
  {
    if Reached(m, rules[1..], e, i) {
      forall j | 0 <= j < i + 1 ensures !(Fires(m, rules[j], e) && rules[j].row.stopOnMatch) {
        assert j > 0 ==> rules[j] == rules[1..][j - 1];
      }
    }
    if Reached(m, rules, e, i + 1) {
      forall j | 0 <= j < i ensures !(Fires(m, rules[1..][j], e) && rules[1..][j].row.stopOnMatch) {
        assert rules[1..][j] == rules[j + 1];
      }
    }
  }

  /** Nothing is dispatched twice or to a target served already, and only by rules reached. */
  lemma {:induction false} RoutedSound(m: Matcher, rules: seq<Rule>, e: Event, served: set<int>)
    ensures var ds := Routed(m, rules, e, served);
            && OncePerTarget(ds)
            && forall d <- ds :: d.event == e && d.target.id !in served
                                 && exists i :: Chosen(m, rules, e, d.target.id, i) && rules[i] == d.rule && d.target in d.rule.targets
  {
    if rules != [] {
      var here := if Fires(m, rules[0], e) then Fresh(rules[0], e, rules[0].targets, served) else [];
      var stop := Fires(m, rules[0], e) && rules[0].row.stopOnMatch;
      var rest := if stop then [] else Routed(m, rules[1..], e, served + Ids(here));
      assert Routed(m, rules, e, served) == here + rest by {
        assert served + Ids([]) == served;
      }
      FreshMeans(rules[0], e, rules[0].targets, served);
      if !stop {
        RoutedSound(m, rules[1..], e, served + Ids(here));
      }
      forall d | d in here ensures Chosen(m, rules, e, d.target.id, 0) {
      }
      forall d | d in rest
        ensures exists i :: Chosen(m, rules, e, d.target.id, i) && rules[i] == d.rule && d.target in d.rule.targets
      {
        var i :| Chosen(m, rules[1..], e, d.target.id, i) && rules[1..][i] == d.rule && d.target in d.rule.targets;
        ChosenLater(m, rules, e, d.target.id, i, served);
        assert Chosen(m, rules, e, d.target.id, i + 1);
      }
    }
  }

  lemma ChosenLater(m: Matcher, rules: seq<Rule>, e: Event, id: int, i: int, served: set<int>)
    requires rules != [] && !(Fires(m, rules[0], e) && rules[0].row.stopOnMatch)
    requires Chosen(m, rules[1..], e, id, i) && id !in served
    requires Fires(m, rules[0], e) ==> id !in Ids(Fresh(rules[0], e, rules[0].targets, served))
    ensures Chosen(m, rules, e, id, i + 1)
  {
    FreshMeans(rules[0], e, rules[0].targets, served);
    ReachedLater(m, rules, e, i);
    forall j | 0 <= j < i + 1 ensures !(Reached(m, rules, e, j) && Bound(rules[j], id)) {
      if j > 0 {
        ReachedLater(m, rules, e, j - 1);
      }
    }
  }

  /** Every target bound to a rule reached is served. */
  lemma {:induction false} RoutedComplete(m: Matcher, rules: seq<Rule>, e: Event, served: set<int>, i: int, t: Target)
    requires Reached(m, rules, e, i) && t in rules[i].targets
    ensures t.id in served + Ids(Routed(m, rules, e, served))
  {
    var here := if Fires(m, rules[0], e) then Fresh(rules[0], e, rules[0].targets, served) else [];
    FreshMeans(rules[0], e, rules[0].targets, served);
    if i > 0 {
      ReachedLater(m, rules, e, i - 1);
      RoutedComplete(m, rules[1..], e, served + Ids(here), i - 1, t);
      var rest := Routed(m, rules[1..], e, served + Ids(here));
      assert served + Ids([]) == served;
      assert Routed(m, rules, e, served) == here + rest;
      assert Ids(here + rest) == Ids(here) + Ids(rest);
    } else {
      var ds := Routed(m, rules, e, served);
      assert here <= ds && Ids(here) <= Ids(ds);
    }
  }

  /** A target is dispatched just when a matching rule at or before the first terminal match is bound to it;
      then exactly once, by the earliest such rule. */
  lemma RoutedMeans(m: Matcher, rules: seq<Rule>, e: Event, id: int)
    ensures id in Ids(Routed(m, rules, e, {})) <==> exists i :: Reached(m, rules, e, i) && Bound(rules[i], id)
    ensures OncePerTarget(Routed(m, rules, e, {}))
    ensures forall d <- Routed(m, rules, e, {}) ::
              d.event == e && exists i :: Chosen(m, rules, e, d.target.id, i) && rules[i] == d.rule && d.target in d.rule.targets
  {
    RoutedSound(m, rules, e, {});
    if i :| Reached(m, rules, e, i) && Bound(rules[i], id) {
      var t :| t in rules[i].targets && t.id == id;
      RoutedComplete(m, rules, e, {}, i, t);
    }
  }

  // ----- pruning -----

  predicate Useful(rule: Rule) {
    rule.targets != [] || rule.row.stopOnMatch
  }

  function Pruned(rules: seq<Rule>): seq<Rule> {
    if rules == [] then [] else (if Useful(rules[0]) then [rules[0]] else []) + Pruned(rules[1..])
  }

  /** Leaving out unbound rules that are not terminal changes the routing of no event. */
  lemma {:induction false} PruningKeepsRoutes(m: Matcher, rules: seq<Rule>, e: Event, served: set<int>)
    ensures Routed(m, Pruned(rules), e, served) == Routed(m, rules, e, served)
  {
    if rules != [] {
      var here := Fresh(rules[0], e, rules[0].targets, served);
      if Useful(rules[0]) {
        assert Pruned(rules)[0] == rules[0] && Pruned(rules)[1..] == Pruned(rules[1..]);
        PruningKeepsRoutes(m, rules[1..], e, if Fires(m, rules[0], e) then served + Ids(here) else served);
      } else {
        assert Pruned(rules) == Pruned(rules[1..]) && here == [] && served + Ids(here) == served;
        PruningKeepsRoutes(m, rules[1..], e, served);
      }
    }
  }

  // ----- the ruleset and the router -----

  /** The targets bound to a rule, in the order of the bindings. */
  function TargetsOf(bindings: seq<Binding>, rule: int): seq<Target> {
    if bindings == [] then []
    else
      var last := bindings[|bindings| - 1];
      TargetsOf(bindings[..|bindings| - 1], rule) + if last.rule == rule then [last.target] else []
  }

  /** The rules whose expression compiles, with their targets. */
  function Compiled(m: Matcher, rows: seq<RuleRow>, bindings: seq<Binding>): seq<Rule> {
    if rows == [] then []
    else
      (if m.compiles(rows[0].pattern) then [Rule(rows[0], TargetsOf(bindings, rows[0].id))] else [])
      + Compiled(m, rows[1..], bindings)
  }

  lemma {:induction false} CompiledSplits(m: Matcher, a: seq<RuleRow>, b: seq<RuleRow>, bindings: seq<Binding>)
    ensures Compiled(m, a + b, bindings) == Compiled(m, a, bindings) + Compiled(m, b, bindings)
  {
    if a == [] {
      assert a + b == b;
    } else {
      assert (a + b)[1..] == a[1..] + b;
      CompiledSplits(m, a[1..], b, bindings);
    }
  }

  lemma {:induction false} PrunedSplits(a: seq<Rule>, b: seq<Rule>)
    ensures Pruned(a + b) == Pruned(a) + Pruned(b)
  {
    if a == [] {
      assert a + b == b;
    } else {
      assert (a + b)[1..] == a[1..] + b;
      PrunedSplits(a[1..], b);
    }
  }

  lemma PrunedRow(m: Matcher, rows: seq<RuleRow>, i: nat, bindings: seq<Binding>)
    requires i < |rows|
    ensures var rule := Rule(rows[i], TargetsOf(bindings, rows[i].id));
            Pruned(Compiled(m, rows[..i + 1], bindings)) ==
            Pruned(Compiled(m, rows[..i], bindings))
            + if m.compiles(rows[i].pattern) && Useful(rule) then [rule] else []
  {
    assert rows[..i + 1] == rows[..i] + [rows[i]];
    CompiledSplits(m, rows[..i], [rows[i]], bindings);
    assert [rows[i]][1..] == [];
    PrunedSplits(Compiled(m, rows[..i], bindings), Compiled(m, [rows[i]], bindings));
  }

  class Ruleset {
    const m: Matcher
    var rules: seq<Rule>

    constructor (m: Matcher)
      ensures this.m == m && rules == []
    {
      this.m, rules := m, [];
    }

    /** Group the bindings by rule. */
    method ByRule(bindings: seq<Binding>) returns (byRule: map<int, seq<Target>>)
      ensures forall r :: (if r in byRule then byRule[r] else []) == TargetsOf(bindings, r)
    {
      byRule := map[];
      for i := 0 to |bindings|
        invariant forall r :: (if r in byRule then byRule[r] else []) == TargetsOf(bindings[..i], r)
      {
        assert bindings[..i + 1][..i] == bindings[..i];
        var b := bindings[i];
        byRule := byRule[b.rule := (if b.rule in byRule then byRule[b.rule] else []) + [b.target]];
      }
      assert bindings[..|bindings|] == bindings;
    }

    /** Rebuild from the enabled regex rules and all bindings, both in order. */
    method Reload(rows: seq<RuleRow>, bindings: seq<Binding>)
      modifies this
      ensures rules == Pruned(Compiled(m, rows, bindings))
      ensures forall e :: Routed(m, rules, e, {}) == Routed(m, Compiled(m, rows, bindings), e, {})
    {
      var byRule := ByRule(bindings);
      var compiled := [];
      for i := 0 to |rows|
        invariant compiled == Pruned(Compiled(m, rows[..i], bindings))
      {
        PrunedRow(m, rows, i, bindings);
        var r := rows[i];
        if m.compiles(r.pattern) {
          var targets := if r.id in byRule then byRule[r.id] else [];
          assert targets == TargetsOf(bindings, r.id);
          if targets != [] || r.stopOnMatch {
            compiled := compiled + [Rule(r, targets)];
          }
        }
      }
      assert rows[..|rows|] == rows;
      rules := compiled;
      forall e ensures Routed(m, rules, e, {}) == Routed(m, Compiled(m, rows, bindings), e, {}) {
        PruningKeepsRoutes(m, Compiled(m, rows, bindings), e, {});
      }
    }
  }

  class Router {
    const m: Matcher
    const ruleset: Ruleset
    /** The dispatches started, in order. */
    var tasks: seq<Dispatch>

    constructor (ruleset: Ruleset)
      ensures this.ruleset == ruleset && m == ruleset.m && tasks == []
    {
      this.ruleset, m, tasks := ruleset, ruleset.m, [];
    }

    /** `consider`: every event of a batch against the rules of the moment. */
    method Consider(batch: seq<Event>)
      modifies this
      ensures tasks == old(tasks) + RoutedAll(m, ruleset.rules, batch)
    {
      var rules := ruleset.rules;
      var i := 0;
      while i < |batch|
        invariant i <= |batch| && ruleset.rules == rules
        invariant tasks == old(tasks) + RoutedAll(m, rules, batch[..i])
      {
        ConsiderOne(batch[i], rules);
        assert batch[..i + 1][..i] == batch[..i];
        i := i + 1;
      }
      assert batch[..i] == batch;
    }

    /** `_consider_one`: match, coalesce per target, stop at a terminal match. */
    method ConsiderOne(e: Event, rules: seq<Rule>)
      modifies `tasks
      ensures tasks == old(tasks) + Routed(m, rules, e, {})
    {
      var served: set<int> := {};
      var i := 0;
      while i < |rules|
        invariant i <= |rules|
        invariant old(tasks) + Routed(m, rules, e, {}) == tasks + Routed(m, rules[i..], e, served)
      {
        var rule := rules[i];
        assert rules[i..][1..] == rules[i + 1..];
        i := i + 1;
        if !Fires(m, rule, e) {
          continue;
        }
        served := Serve(rule, e, served);
        if rule.row.stopOnMatch {
          return;
        }
      }
    }

    /** The inner loop: the targets of one matching rule. */
    method Serve(rule: Rule, e: Event, served: set<int>) returns (served': set<int>)
      modifies `tasks
      ensures tasks == old(tasks) + Fresh(rule, e, rule.targets, served)
      ensures served' == served + Ids(Fresh(rule, e, rule.targets, served))
    {
      served' := served;
      var i := 0;
      while i < |rule.targets|
        invariant i <= |rule.targets|
        invariant old(tasks) + Fresh(rule, e, rule.targets, served) == tasks + Fresh(rule, e, rule.targets[i..], served')
        invariant served + Ids(Fresh(rule, e, rule.targets, served)) == served' + Ids(Fresh(rule, e, rule.targets[i..], served'))
      {
        var target := rule.targets[i];
        assert rule.targets[i..][1..] == rule.targets[i + 1..];
        if target.id !in served' {
          ghost var rest := Fresh(rule, e, rule.targets[i + 1..], served' + {target.id});
          assert Ids([Dispatch(rule, e, target)] + rest) == {target.id} + Ids(rest);
          served' := served' + {target.id};
          tasks := tasks + [Dispatch(rule, e, target)];
        }
        i := i + 1;
      }
    }
  }

  function RoutedAll(m: Matcher, rules: seq<Rule>, batch: seq<Event>): seq<Dispatch> {
    if batch == [] then []
    else RoutedAll(m, rules, batch[..|batch| - 1]) + Routed(m, rules, batch[|batch| - 1], {})
  }
}
