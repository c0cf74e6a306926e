/** The dependency walk of a cloud plan (`visit` in cloud_offload/plan_protocol.py). */
module PlanGraph {

  /** What each stage depends on. */
  type Graph = map<string, seq<string>>

  ghost predicate Closed(g: Graph) {
    forall s <- g, d <- g[s] :: d in g
  }

  ghost predicate Path(g: Graph, p: seq<string>) {
    && |p| > 0 && (forall s <- p :: s in g)
    && forall i | 0 <= i < |p| - 1 :: p[i + 1] in g[p[i]]
  }

  ghost predicate Cycle(g: Graph, p: seq<string>) {
    Path(g, p) && |p| >= 2 && p[0] == p[|p| - 1]
  }

  ghost predicate Cyclic(g: Graph) {
    exists p :: Cycle(g, p)
  }

  /** Every stage of `order` comes after all its dependencies. */
  ghost predicate DepsFirst(g: Graph, order: seq<string>) {
    forall k | 0 <= k < |order| :: order[k] in g && forall d <- g[order[k]] :: d in order[..k]
  }

  ghost predicate Topological(g: Graph, order: seq<string>) {
    DepsFirst(g, order) && forall s <- g :: s in order
  }

  /******* The walk *******/

  /** A walk ends at a cycle, or with the finished stages in the order they finished. */
  datatype Walk = Stuck(cycle: seq<string>) | Walked(order: seq<string>)

  function Elements(s: seq<string>): set<string> {
    set x <- s
  }

  function IndexOf(s: seq<string>, x: string): (i: nat)
    requires x in s
    ensures i < |s| && s[i] == x
  {
    if s[0] == x then 0 else 1 + IndexOf(s[1..], x)
  }

  /** `stack` holds the stages being visited, `order` the ones already visited. */
  function VisitFrom(g: Graph, sid: string, stack: seq<string>, order: seq<string>): Walk
    requires Closed(g) && sid in g
    decreases g.Keys - Elements(stack), 0, 0
  {
    if sid in stack then
      Stuck(stack[IndexOf(stack, sid)..] + [sid])
    else if sid in order then
      Walked(order)
    else
      assert sid in g.Keys - Elements(stack) && sid in Elements(stack + [sid]);
      match VisitAll(g, g[sid], stack + [sid], order)
      case Stuck(c) => Stuck(c)
      case Walked(o) => Walked(o + [sid])
  }

  function VisitAll(g: Graph, sids: seq<string>, stack: seq<string>, order: seq<string>): Walk
    requires Closed(g) && forall s <- sids :: s in g
    decreases g.Keys - Elements(stack), 1, |sids|
  {
    if sids == [] then
      Walked(order)
    else
      var n := |sids| - 1;
      match VisitAll(g, sids[..n], stack, order)
      case Stuck(c) => Stuck(c)
      case Walked(o) => VisitFrom(g, sids[n], stack, o)
  }

  class DepthFirst {
    const graph: Graph
    var visiting: set<string>
    var visited: set<string>
    ghost var stack: seq<string>
    ghost var order: seq<string>

    ghost predicate Valid()
      reads this
    {
      visiting == Elements(stack) && visited == Elements(order)
    }

    constructor (graph: Graph)
      ensures this.graph == graph && Valid() && stack == [] && order == []
    {
      this.graph := graph;
      visiting, visited, stack, order := {}, {}, [], [];
    }

    /** False stands for the error that the dependencies contain a cycle. */
    method Visit(sid: string) returns (ok: bool)
      requires Valid() && Closed(graph) && sid in graph
      modifies this
      decreases graph.Keys - Elements(stack), 0
      ensures ok == VisitFrom(graph, sid, old(stack), old(order)).Walked?
      ensures ok ==> Valid() && stack == old(stack) && Walked(order) == VisitFrom(graph, sid, stack, old(order))
    {
      if sid in visiting {
        return false;
      }
      if sid in visited {
        return true;
      }
      visiting, stack := visiting + {sid}, stack + [sid];
      assert sid in graph.Keys - Elements(old(stack)) && sid in Elements(stack);
      ok := VisitEach(graph[sid]);
      if !ok {
        return false;
      }
      visiting, stack := visiting - {sid}, old(stack);
      visited, order := visited + {sid}, order + [sid];
    }

    /** The loop over a stage's dependencies, and over all stages. */
    method VisitEach(sids: seq<string>) returns (ok: bool)
      requires Valid() && Closed(graph) && forall s <- sids :: s in graph
      modifies this
      decreases graph.Keys - Elements(stack), 1
      ensures ok == VisitAll(graph, sids, old(stack), old(order)).Walked?
      ensures ok ==> Valid() && stack == old(stack) && Walked(order) == VisitAll(graph, sids, stack, old(order))
    {
      for i := 0 to |sids|
        invariant Valid() && stack == old(stack)
        invariant VisitAll(graph, sids[..i], stack, old(order)) == Walked(order)
      {
        assert sids[..i + 1][..i] == sids[..i];
        ghost var o := order;
        ok := Visit(sids[i]);
        if !ok {
          assert VisitFrom(graph, sids[i], old(stack), o).Stuck?;
          VisitAllStuck(graph, sids, old(stack), old(order), i + 1);
          return false;
        }
      }
      assert sids[..|sids|] == sids;
      ok := true;
    }
  }

  lemma {:induction false} VisitAllStuck(g: Graph, sids: seq<string>, stack: seq<string>, order: seq<string>, n: nat)
    requires Closed(g) && (forall s <- sids :: s in g) && n <= |sids|
    requires VisitAll(g, sids[..n], stack, order).Stuck?
    ensures VisitAll(g, sids, stack, order).Stuck?
    decreases |sids|
  {
    if n < |sids| {
      assert sids[..|sids| - 1][..n] == sids[..n];
      VisitAllStuck(g, sids[..|sids| - 1], stack, order, n);
    } else {
      assert sids[..n] == sids;
    }
  }

  /******* What a walk finds *******/

  /** The stack is a path that leads to `sid`. */
  ghost predicate Leads(g: Graph, stack: seq<string>, sid: string) {
    stack == [] || (Path(g, stack) && sid in g[stack[|stack| - 1]])
  }

  lemma {:induction false} VisitFinds(g: Graph, sid: string, stack: seq<string>, order: seq<string>)
    requires Closed(g) && sid in g && Leads(g, stack, sid) && DepsFirst(g, order)
    ensures var w := VisitFrom(g, sid, stack, order);
            match w
            case Stuck(c) => Cycle(g, c)
            case Walked(o) => DepsFirst(g, o) && order <= o && sid in o
    decreases g.Keys - Elements(stack), 0, 0
  {
    if sid in stack {
      var i := IndexOf(stack, sid);
      var c := stack[i..] + [sid];
      forall k | 0 <= k < |c| - 1 ensures c[k + 1] in g[c[k]] {
        assert c[k] == stack[i + k];
      }
    } else if sid !in order {
      var next := stack + [sid];
      assert sid in g.Keys - Elements(stack) && sid in Elements(next);
      assert Path(g, next);
      assert next[|next| - 1] == sid;
      VisitAllFinds(g, g[sid], next, order);
      var w := VisitAll(g, g[sid], next, order);
      if w.Walked? {
        FinishedNext(g, w.order, sid);
      }
    }
  }

  lemma FinishedNext(g: Graph, order: seq<string>, sid: string)
    requires DepsFirst(g, order) && sid in g && forall d <- g[sid] :: d in order
    ensures DepsFirst(g, order + [sid])
  {
    var o := order + [sid];
    forall k | 0 <= k < |o| ensures o[k] in g && forall d <- g[o[k]] :: d in o[..k] {
      assert o[..k] == order[..k];
    }
  }

  lemma {:induction false} VisitAllFinds(g: Graph, sids: seq<string>, stack: seq<string>, order: seq<string>)
    requires Closed(g) && (forall s <- sids :: s in g && Leads(g, stack, s)) && DepsFirst(g, order)
    ensures var w := VisitAll(g, sids, stack, order);
            match w
            case Stuck(c) => Cycle(g, c)
            case Walked(o) => DepsFirst(g, o) && order <= o && forall s <- sids :: s in o
    decreases g.Keys - Elements(stack), 1, |sids|
  {
    if sids != [] {
      var n := |sids| - 1;
      assert sids == sids[..n] + [sids[n]];
      VisitAllFinds(g, sids[..n], stack, order);
      var before := VisitAll(g, sids[..n], stack, order);
      if before.Walked? {
        VisitFinds(g, sids[n], stack, before.order);
      }
    }
  }

  ghost predicate Once(order: seq<string>) {
    forall i, j | 0 <= i < j < |order| :: order[i] != order[j]
  }

  /** No stage is finished twice, nor while it is being visited. */
  lemma {:induction false} VisitFinishesOnce(g: Graph, sid: string, stack: seq<string>, order: seq<string>)
    requires Closed(g) && sid in g && Once(order)
    ensures var w := VisitFrom(g, sid, stack, order);
            w.Walked? ==> Once(w.order) && forall s <- w.order :: s in order || s !in stack
    decreases g.Keys - Elements(stack), 0, 0
  {
    if sid !in stack && sid !in order {
      var next := stack + [sid];
      assert sid in g.Keys - Elements(stack) && sid in Elements(next);
      assert next[|next| - 1] == sid;
      VisitAllFinishesOnce(g, g[sid], next, order);
    }
  }

  lemma {:induction false} VisitAllFinishesOnce(g: Graph, sids: seq<string>, stack: seq<string>, order: seq<string>)
    requires Closed(g) && (forall s <- sids :: s in g) && Once(order)
    ensures var w := VisitAll(g, sids, stack, order);
            w.Walked? ==> Once(w.order) && forall s <- w.order :: s in order || s !in stack
    decreases g.Keys - Elements(stack), 1, |sids|
  {
    if sids != [] {
      var n := |sids| - 1;
      VisitAllFinishesOnce(g, sids[..n], stack, order);
      var before := VisitAll(g, sids[..n], stack, order);
      if before.Walked? {
        VisitFinishesOnce(g, sids[n], stack, before.order);
      }
    }
  }

  /** In a topological order no path comes back to where it started. */
  lemma {:induction false} PathGoesDown(g: Graph, order: seq<string>, p: seq<string>)
    requires DepsFirst(g, order) && Path(g, p) && (forall s <- p :: s in order) && |p| >= 2
    ensures IndexOf(order, p[|p| - 1]) < IndexOf(order, p[0])
    decreases |p|
  {
    hide IndexOf, DepsFirst;
    var n := |p| - 1;
    assert p[n - 1] in g && p[n] in g[p[n - 1]];
    DependencyIsEarlier(g, order, p[n - 1], p[n]);
    if n >= 2 {
      var front := p[..n];
      assert front[|front| - 1] == p[n - 1] && front[0] == p[0];
      PathGoesDown(g, order, front);
    }
  }

  lemma DependencyIsEarlier(g: Graph, order: seq<string>, s: string, d: string)
    requires DepsFirst(g, order) && s in order && s in g && d in g[s]
    ensures d in order && IndexOf(order, d) < IndexOf(order, s)
  {
    var k := IndexOf(order, s);
    assert order[k] == s && d in order[..k];
    var j :| 0 <= j < k && order[..k][j] == d;
    IndexIsFirst(order, d, j);
  }

  lemma {:induction false} IndexIsFirst(order: seq<string>, x: string, j: nat)
    requires j < |order| && order[j] == x
    ensures IndexOf(order, x) <= j
  {
    if order[0] != x {
      IndexIsFirst(order[1..], x, j - 1);
    }
  }

  /** Whatever lists all stages after their dependencies shows that there is no cycle. */
  lemma OrderedIsAcyclic(g: Graph, order: seq<string>)
    requires Topological(g, order)
    ensures !Cyclic(g)
  {
    if c :| Cycle(g, c) {
      PathGoesDown(g, order, c);
    }
  }

  /** The walk over all stages accepts a dependency graph exactly when it has no cycle, and
      then the order in which stages finish is a topological order. */
  lemma WalkAcceptsIffAcyclic(g: Graph, sids: seq<string>)
    requires Closed(g) && forall s :: s in g <==> s in sids
    ensures var w := VisitAll(g, sids, [], []);
            && (w.Walked? <==> !Cyclic(g))
            && (w.Walked? ==> Topological(g, w.order) && Once(w.order))
  {
    VisitAllFinds(g, sids, [], []);
    VisitAllFinishesOnce(g, sids, [], []);
    var w := VisitAll(g, sids, [], []);
    if w.Walked? {
      OrderedIsAcyclic(g, w.order);
    }
  }
}
