/** The dependency graph of a configuration: one entry per configured job, an edge from a
    job to each job named in its `depends_on`. Only edges between configured names count. */
module DependencyGraph {
  import opened Base

  datatype Entry = Entry(name: Name, dependsOn: seq<Name>)

  type Graph = map<Name, seq<Name>>

  function Names(configs: seq<Entry>): set<Name> {
    set e | e in configs :: e.name
  }

  /** Name to dependency list; a repeated name keeps its last list. */
  function DepsMap(configs: seq<Entry>): (g: Graph)
    ensures g.Keys == Names(configs)
  {
    if configs == [] then map[]
    else
      var init, last := configs[..|configs| - 1], configs[|configs| - 1];
      assert configs == init + [last];
      DepsMap(init)[last.name := last.dependsOn]
  }

  ghost predicate Edge(g: Graph, a: Name, b: Name) {
    a in g && b in g && b in g[a]
  }

  /** A walk follows edges from each name to the next. */
  ghost predicate IsWalk(g: Graph, p: seq<Name>) {
    forall i :: 0 < i < |p| ==> Edge(g, p[i - 1], p[i])
  }

  ghost predicate HasCycle(g: Graph) {
    exists p: seq<Name> :: |p| >= 2 && p[0] == p[|p| - 1] && IsWalk(g, p)
  }

  ghost predicate NoDuplicates<T>(s: seq<T>) {
    forall i, j :: 0 <= i < j < |s| ==> s[i] != s[j]
  }

  /** Every name's dependencies stand before it. */
  ghost predicate DepsFirst(g: Graph, order: seq<Name>) {
    forall i, d :: 0 <= i < |order| && Edge(g, order[i], d) ==> d in order[..i]
  }

  ghost predicate IsTopologicalOrder(g: Graph, order: seq<Name>) {
    && NoDuplicates(order)
    && (forall n :: n in g <==> n in order)
    && DepsFirst(g, order)
  }

  lemma {:induction false} WalkDescends(g: Graph, order: seq<Name>, p: seq<Name>, k: nat)
    requires DepsFirst(g, order) && IsWalk(g, p) && |p| >= 2
    requires k < |order| && order[k] == p[0]
    ensures p[|p| - 1] in order[..k]
    decreases |p|
  {
    assert Edge(g, p[0], p[1]);
    var j :| 0 <= j < k && order[j] == p[1];
    if |p| > 2 {
      var q := p[1..];
      assert IsWalk(g, q) by {
        forall i | 0 < i < |q| ensures Edge(g, q[i - 1], q[i]) {
          assert Edge(g, p[i], p[i + 1]);
        }
      }
      WalkDescends(g, order, q, j);
    }
  }

  /** A graph that can be listed dependencies-first has no cycle. */
  lemma {:induction false} TopologicalOrderExcludesCycles(g: Graph, order: seq<Name>)
    requires IsTopologicalOrder(g, order)
    ensures !HasCycle(g)
  {
    if HasCycle(g) {
      var p: seq<Name> :| |p| >= 2 && p[0] == p[|p| - 1] && IsWalk(g, p);
      assert Edge(g, p[0], p[1]);
      var k :| 0 <= k < |order| && order[k] == p[0];
      WalkDescends(g, order, p, k);
      assert false;
    }
  }
}
