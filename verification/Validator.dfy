/** Pre-flight dependency check: unknown names, then a coloured depth-first search for
    cycles. A search that finds a cycle returns at once and leaves the names on its stack
    gray, so later searches may meet gray names that are on no stack. */
module Validator {
  import opened Base
  import opened DependencyGraph

  datatype Color = White | Gray | Black

  datatype Error =
    | UnknownDependency(job: Name, dep: Name)
    | CycleDetected(node: Name, dep: Name)

  function UnknownOf(job: Name, deps: seq<Name>, names: set<Name>): seq<Error> {
    if deps == [] then []
    else
      var init, last := deps[..|deps| - 1], deps[|deps| - 1];
      UnknownOf(job, init, names) + if last in names then [] else [UnknownDependency(job, last)]
  }

  /** One error per dependency on an unconfigured name, in configuration order. */
  function UnknownErrors(configs: seq<Entry>, names: set<Name>): seq<Error> {
    if configs == [] then []
    else
      var init, last := configs[..|configs| - 1], configs[|configs| - 1];
      UnknownErrors(init, names) + UnknownOf(last.name, last.dependsOn, names)
  }

  ghost predicate AllDepsKnown(configs: seq<Entry>) {
    forall e, d :: e in configs && d in e.dependsOn ==> d in Names(configs)
  }

  lemma {:induction false} NoUnknownOf(job: Name, deps: seq<Name>, names: set<Name>)
    ensures UnknownOf(job, deps, names) == [] <==> forall d :: d in deps ==> d in names
  {
    if deps != [] {
      var init, last := deps[..|deps| - 1], deps[|deps| - 1];
      assert deps == init + [last];
      NoUnknownOf(job, init, names);
    }
  }

  lemma {:induction false} NoUnknownErrors(configs: seq<Entry>, names: set<Name>)
    ensures UnknownErrors(configs, names) == []
       <==> forall e, d :: e in configs && d in e.dependsOn ==> d in names
  {
    if configs != [] {
      var init, last := configs[..|configs| - 1], configs[|configs| - 1];
      assert configs == init + [last];
      NoUnknownErrors(init, names);
      NoUnknownOf(last.name, last.dependsOn, names);
    }
  }

  type Colors = map<Name, Color>

  ghost function WhiteNames(color: Colors): set<Name> {
    set n | n in color && color[n] == White
  }

  /** `finished` lists the black names in the order they turned black, each after its
      dependencies, and every reported error is an edge that closed a genuine cycle or was
      met after one. */
  ghost predicate Consistent(deps: Graph, color: Colors, errors: seq<Error>, finished: seq<Name>) {
    && color.Keys == deps.Keys
    && NoDuplicates(finished)
    && (forall n :: n in finished <==> n in color && color[n] == Black)
    && DepsFirst(deps, finished)
    && (forall e :: e in errors ==> e.CycleDetected? && Edge(deps, e.node, e.dep))
    && (errors != [] ==> HasCycle(deps))
  }

  /** Until a cycle is found, the gray names are exactly those of the call stack, which is a
      walk. Afterwards gray says nothing. */
  ghost predicate GrayIsStack(deps: Graph, color: Colors, errors: seq<Error>, stack: seq<Name>) {
    errors == [] ==>
      && IsWalk(deps, stack)
      && forall n :: n in stack <==> n in color && color[n] == Gray
  }

  /** A color, once given, only changes inside the call that gave it. */
  ghost predicate OnlyWhiteChanged(before: Colors, after: Colors) {
    && before.Keys == after.Keys
    && forall n :: n in before && before[n] != White ==> after[n] == before[n]
  }

  lemma StackedGrayClosesCycle(deps: Graph, stack: seq<Name>, dep: Name)
    requires |stack| > 0 && IsWalk(deps, stack) && dep in stack && Edge(deps, stack[|stack| - 1], dep)
    ensures HasCycle(deps)
  {
    var k :| 0 <= k < |stack| && stack[k] == dep;
    var p := stack[k..] + [dep];
    forall i | 0 < i < |p| ensures Edge(deps, p[i - 1], p[i]) {
      if i < |p| - 1 {
        assert Edge(deps, stack[k + i - 1], stack[k + i]);
      }
    }
    assert IsWalk(deps, p);
  }

  lemma Entering(deps: Graph, color: Colors, errors: seq<Error>, finished: seq<Name>, stack: seq<Name>, node: Name)
    requires Consistent(deps, color, errors, finished) && GrayIsStack(deps, color, errors, stack)
    requires node in deps && color[node] == White
    requires stack == [] || Edge(deps, stack[|stack| - 1], node)
    ensures Consistent(deps, color[node := Gray], errors, finished)
    ensures GrayIsStack(deps, color[node := Gray], errors, stack + [node])
    ensures errors == [] ==> node !in stack
    ensures WhiteNames(color[node := Gray]) < WhiteNames(color)
  {
    assert node in WhiteNames(color);
  }

  lemma Leaving(deps: Graph, color: Colors, errors: seq<Error>, finished: seq<Name>, stack: seq<Name>, node: Name)
    requires Consistent(deps, color, errors, finished) && GrayIsStack(deps, color, errors, stack + [node])
    requires node in deps && color[node] == Gray && (errors == [] ==> node !in stack)
    requires forall d :: Edge(deps, node, d) ==> color[d] == Black
    ensures WhiteNames(color[node := Black]) == WhiteNames(color)
    ensures Consistent(deps, color[node := Black], errors, finished + [node])
    ensures GrayIsStack(deps, color[node := Black], errors, stack)
  {
    var stack' := stack + [node];
    if errors == [] {
      forall i | 0 < i < |stack| ensures Edge(deps, stack[i - 1], stack[i]) {
        assert Edge(deps, stack'[i - 1], stack'[i]);
      }
      forall n ensures n in stack <==> n in color && color[node := Black][n] == Gray {
        assert n in stack' <==> n in stack || n == node;
      }
    }
    var done := finished + [node];
    forall n ensures n in done <==> n in color && color[node := Black][n] == Black {
      assert n in done <==> n in finished || n == node;
    }
    forall i, d | 0 <= i < |done| && Edge(deps, done[i], d) ensures d in done[..i] {
      if i < |finished| {
        assert d in finished[..i];
        assert finished[..i] == done[..i];
      } else {
        assert done[..i] == finished;
      }
    }
  }

  /** An edge back to a gray name: a cycle, now or reported before. */
  lemma MeetingGray(deps: Graph, color: Colors, errors: seq<Error>, finished: seq<Name>, stack: seq<Name>, node: Name,
                    dep: Name)
    requires Consistent(deps, color, errors, finished) && GrayIsStack(deps, color, errors, stack + [node])
    requires Edge(deps, node, dep) && color[dep] == Gray
    ensures Consistent(deps, color, errors + [CycleDetected(node, dep)], finished)
    ensures GrayIsStack(deps, color, errors + [CycleDetected(node, dep)], stack)
  {
    if errors == [] {
      StackedGrayClosesCycle(deps, stack + [node], dep);
    }
  }

  lemma GraySaysNothing(deps: Graph, color: Colors, errors: seq<Error>, stack: seq<Name>)
    requires errors != []
    ensures GrayIsStack(deps, color, errors, stack)
  {
  }

  class CycleSearch {
    const deps: Graph
    var color: Colors
    var errors: seq<Error>
    ghost var finished: seq<Name>  // names in the order they turned black

    ghost predicate Valid()
      reads this
    {
      Consistent(deps, color, errors, finished)
    }

    constructor (deps: Graph)
      ensures this.deps == deps && Valid() && errors == []
      ensures forall n :: n in deps ==> color[n] == White
    {
      this.deps := deps;
      color := map n | n in deps :: White;
      errors := [];
      finished := [];
    }

    /** Searches from a white node below `stack`. False means the node and everything it
        needs are black; true means a cycle has been reported. */
    method Dfs(node: Name, ghost stack: seq<Name>) returns (found: bool)
      requires Valid() && node in deps && color[node] == White
      requires GrayIsStack(deps, color, errors, stack)
      requires stack == [] || Edge(deps, stack[|stack| - 1], node)
      modifies this
      ensures Valid() && GrayIsStack(deps, color, errors, stack)
      ensures OnlyWhiteChanged(old(color), color) && color[node] != White
      ensures old(errors) <= errors && old(finished) <= finished
      ensures found ==> errors != []
      ensures !found ==> color[node] == Black && errors == old(errors)
      ensures WhiteNames(color) <= WhiteNames(old(color))
      decreases WhiteNames(color)
    {
      hide DepsFirst, NoDuplicates, HasCycle, IsWalk, WhiteNames, GrayIsStack;
      Entering(deps, color, errors, finished, stack, node);
      color := color[node := Gray];
      var ds := deps[node];
      for k := 0 to |ds|
        invariant Valid() && GrayIsStack(deps, color, errors, stack + [node])
        invariant errors == old(errors) && old(finished) <= finished
        invariant color[node] == Gray && OnlyWhiteChanged(old(color), color)
        invariant WhiteNames(color) < WhiteNames(old(color))
        invariant forall j :: 0 <= j < k && ds[j] in color ==> color[ds[j]] == Black
      {
        var dep := ds[k];
        if dep !in color {
          continue;
        }
        assert Edge(deps, node, dep);
        if color[dep] == Gray {
          MeetingGray(deps, color, errors, finished, stack, node, dep);
          errors := errors + [CycleDetected(node, dep)];
          return true;
        }
        if color[dep] == White {
          var sub := Dfs(dep, stack + [node]);
          if sub {
            GraySaysNothing(deps, color, errors, stack);
            return true;
          }
        }
      }
      Leaving(deps, color, errors, finished, stack, node);
      color := color[node := Black];
      finished := finished + [node];
      return false;
    }
  }

  method FindUnknown(configs: seq<Entry>, names: set<Name>) returns (errors: seq<Error>)
    ensures errors == UnknownErrors(configs, names)
  {
    errors := [];
    for i := 0 to |configs|
      invariant errors == UnknownErrors(configs[..i], names)
    {
      var cfg := configs[i];
      assert configs[..i + 1][..i] == configs[..i];
      for j := 0 to |cfg.dependsOn|
        invariant errors == UnknownErrors(configs[..i], names) + UnknownOf(cfg.name, cfg.dependsOn[..j], names)
      {
        assert cfg.dependsOn[..j + 1][..j] == cfg.dependsOn[..j];
        if cfg.dependsOn[j] !in names {
          errors := errors + [UnknownDependency(cfg.name, cfg.dependsOn[j])];
        }
      }
      assert cfg.dependsOn[..|cfg.dependsOn|] == cfg.dependsOn;
    }
    assert configs[..|configs|] == configs;
  }

  ghost predicate Visited(configs: seq<Entry>, color: Colors) {
    forall e :: e in configs ==> e.name in color && color[e.name] != White
  }

  lemma EveryNameFinished(configs: seq<Entry>, deps: Graph, color: Colors, finished: seq<Name>)
    requires deps.Keys == Names(configs) && Consistent(deps, color, [], finished)
    requires GrayIsStack(deps, color, [], []) && Visited(configs, color)
    ensures IsTopologicalOrder(deps, finished)
  {
  }

  lemma VisitedMore(configs: seq<Entry>, i: nat, before: Colors, after: Colors)
    requires i < |configs| && Visited(configs[..i], before) && OnlyWhiteChanged(before, after)
    requires configs[i].name in after && after[configs[i].name] != White
    ensures Visited(configs[..i + 1], after)
  {
    assert configs[..i + 1] == configs[..i] + [configs[i]];
  }

  lemma NothingChanged(color: Colors)
    ensures OnlyWhiteChanged(color, color)
  {
  }

  lemma Configured(configs: seq<Entry>, i: nat)
    requires i < |configs|
    ensures configs[i].name in DepsMap(configs)
  {
    assert configs[i] in configs;
  }

  lemma ErrorsAreEdges(deps: Graph, color: Colors, errors: seq<Error>, finished: seq<Name>)
    requires Consistent(deps, color, errors, finished)
    ensures color.Keys == deps.Keys
    ensures forall e :: e in errors ==> e.CycleDetected? && Edge(deps, e.node, e.dep)
    ensures errors != [] ==> HasCycle(deps)
  {
  }

  lemma AllWhite(deps: Graph, color: Colors, errors: seq<Error>)
    requires forall n :: n in color ==> color[n] == White
    ensures GrayIsStack(deps, color, errors, [])
  {
  }

  /** Searches from every name still white. */
  method FindCycles(configs: seq<Entry>) returns (errors: seq<Error>, ghost order: seq<Name>)
    ensures forall e :: e in errors ==> e.CycleDetected? && Edge(DepsMap(configs), e.node, e.dep)
    ensures errors != [] ==> HasCycle(DepsMap(configs))
    ensures errors == [] ==> IsTopologicalOrder(DepsMap(configs), order)
  {
    hide DepsMap, Edge, HasCycle, IsTopologicalOrder, Consistent, GrayIsStack, Visited, OnlyWhiteChanged, WhiteNames;
    var deps := DepsMap(configs);
    var search := new CycleSearch(deps);
    ErrorsAreEdges(deps, search.color, search.errors, search.finished);
    AllWhite(deps, search.color, search.errors);
    NobodyVisited(search.color);
    assert configs[..0] == [];
    for i := 0 to |configs|
      invariant search.deps == deps && search.Valid()
      invariant GrayIsStack(deps, search.color, search.errors, [])
      invariant Visited(configs[..i], search.color)
    {
      var name := configs[i].name;
      Configured(configs, i);
      ErrorsAreEdges(deps, search.color, search.errors, search.finished);
      ghost var before := search.color;
      NothingChanged(before);
      if search.color[name] == White {
        var _ := search.Dfs(name, []);
        ErrorsAreEdges(deps, search.color, search.errors, search.finished);
      }
      VisitedMore(configs, i, before, search.color);
    }
    assert configs[..|configs|] == configs;
    errors, order := search.errors, search.finished;
    ErrorsAreEdges(deps, search.color, errors, order);
    if errors == [] {
      DepsMapKeys(configs);
      EveryNameFinished(configs, deps, search.color, order);
    }
  }

  lemma NobodyVisited(color: Colors)
    ensures Visited([], color)
  {
  }

  lemma DepsMapKeys(configs: seq<Entry>)
    ensures DepsMap(configs).Keys == Names(configs)
  {
  }

  /** The whole check. Cycle errors appear exactly when the graph of configured names has a
      cycle; without one the blackening order lists every job after its dependencies. */
  method CheckDependencies(configs: seq<Entry>) returns (errors: seq<Error>, ghost order: seq<Name>)
    ensures UnknownErrors(configs, Names(configs)) <= errors
    ensures forall k :: |UnknownErrors(configs, Names(configs))| <= k < |errors| ==>
              errors[k].CycleDetected? && Edge(DepsMap(configs), errors[k].node, errors[k].dep)
    ensures |errors| > |UnknownErrors(configs, Names(configs))| <==> HasCycle(DepsMap(configs))
    ensures !HasCycle(DepsMap(configs)) ==> IsTopologicalOrder(DepsMap(configs), order)
    ensures errors == [] <==> AllDepsKnown(configs) && !HasCycle(DepsMap(configs))
  {
    var unknown := FindUnknown(configs, Names(configs));
    NoUnknownErrors(configs, Names(configs));
    var cycles;
    cycles, order := FindCycles(configs);
    if cycles == [] {
      TopologicalOrderExcludesCycles(DepsMap(configs), order);
    }
    errors := unknown + cycles;
  }
}
