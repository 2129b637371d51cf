/** Dependency graphs: paths, cycles, and the two graph algorithms of the kernel,
    the three-colour cycle check (v5/work.py:256-274) and the dependency walk of
    the live loop (v5/live_loop.py:509-531). */
module Graphs {
  import opened Types

  function Succ(g: Graph, v: Id): set<Id> { if v in g then g[v] else {} }

  /** p walks along edges "depends on". */
  ghost predicate IsPath(g: Graph, p: seq<Id>) {
    |p| > 0 && forall i :: 0 < i < |p| ==> p[i] in Succ(g, p[i - 1])
  }

  ghost predicate IsPathBetween(g: Graph, p: seq<Id>, a: Id, b: Id) {
    IsPath(g, p) && p[0] == a && p[|p| - 1] == b
  }

  ghost predicate OnCycle(g: Graph, v: Id) {
    exists p :: |p| > 1 && IsPathBetween(g, p, v, v)
  }

  ghost predicate Acyclic(g: Graph) { forall v :: !OnCycle(g, v) }

  ghost predicate ClosedUnder(g: Graph, s: set<Id>) { forall v :: v in s ==> Succ(g, v) <= s }

  lemma {:induction false} PathStaysIn(g: Graph, s: set<Id>, p: seq<Id>, k: nat)
    requires IsPath(g, p) && p[0] in s && ClosedUnder(g, s) && k < |p|
    ensures p[k] in s
  {
    if k > 0 {
      PathStaysIn(g, s, p, k - 1);
      assert p[k] in Succ(g, p[k - 1]);
    }
  }

  /** Every vertex of a cycle has an outgoing edge, so it is a key of the graph. */
  lemma CycleHasKey(g: Graph, v: Id)
    requires OnCycle(g, v)
    ensures v in g
  {
    var p :| |p| > 1 && IsPathBetween(g, p, v, v);
    assert p[1] in Succ(g, p[0]);
  }

  lemma SubgraphAcyclic(g: Graph, h: Graph)
    requires Acyclic(g) && forall v :: Succ(h, v) <= Succ(g, v)
    ensures Acyclic(h)
  {
    forall v, p | |p| > 1 && IsPathBetween(h, p, v, v) ensures OnCycle(g, v) {
      assert IsPathBetween(g, p, v, v);
    }
  }

  /** A new edge into a vertex without outgoing edges closes no cycle. */
  lemma SinkEdgeAcyclic(g: Graph, from: Id, sink: Id)
    requires Acyclic(g) && from != sink && Succ(g, sink) == {}
    ensures Acyclic(g[from := {sink}])
  {
    var h := g[from := {sink}];
    forall v ensures !OnCycle(h, v) {
      if OnCycle(h, v) {
        var p :| |p| > 1 && IsPathBetween(h, p, v, v);
        forall i | 0 < i < |p| ensures p[i] in Succ(g, p[i - 1]) {
          assert p[i] in Succ(h, p[i - 1]);
          var onward := if i < |p| - 1 then p[i + 1] else p[1];
          assert onward in Succ(h, p[i]);
        }
        assert IsPathBetween(g, p, v, v);
        assert OnCycle(g, v);
      }
    }
  }

  // ------------------------------------------------------------ the cycle check

  datatype Color = White | Gray | Black

  function Colored(color: map<Id, Color>, c: Color): set<Id> { set v | v in color && color[v] == c }

  ghost function Nodes(g: Graph): set<Id> { g.Keys + set v, w | v in g && w in g[v] :: w }

  /** Black is finished: closed under edges and free of cycles. */
  ghost predicate BlackDone(g: Graph, color: map<Id, Color>) {
    && ClosedUnder(g, Colored(color, Black))
    && forall v :: v in Colored(color, Black) ==> !OnCycle(g, v)
  }

  ghost predicate OnStack(g: Graph, color: map<Id, Color>, stack: seq<Id>) {
    && Colored(color, Gray) == (set v | v in stack)
    && (stack == [] || IsPath(g, stack))
  }

  lemma FinishingIsSound(g: Graph, color: map<Id, Color>, node: Id)
    requires BlackDone(g, color) && node !in Colored(color, Black)
    requires Succ(g, node) <= Colored(color, Black)
    ensures !OnCycle(g, node)
  {
    if OnCycle(g, node) {
      var p :| |p| > 1 && IsPathBetween(g, p, node, node);
      assert p[1] in Succ(g, p[0]);
      assert IsPath(g, p[1..]) by {
        forall i | 0 < i < |p[1..]| ensures p[1..][i] in Succ(g, p[1..][i - 1]) {
          assert p[i + 1] in Succ(g, p[i]);
        }
      }
      PathStaysIn(g, Colored(color, Black), p[1..], |p| - 2);
      assert false;
    }
  }

  lemma BackEdgeClosesCycle(g: Graph, stack: seq<Id>, dep: Id)
    requires IsPath(g, stack) && dep in stack && dep in Succ(g, stack[|stack| - 1])
    ensures OnCycle(g, dep)
  {
    var i :| 0 <= i < |stack| && stack[i] == dep;
    var p := stack[i..] + [dep];
    forall k | 0 < k < |p| ensures p[k] in Succ(g, p[k - 1]) {
      if k < |p| - 1 { assert stack[i + k] in Succ(g, stack[i + k - 1]); }
    }
    assert |p| > 1 && IsPathBetween(g, p, dep, dep);
  }

  class CycleCheck {
    const graph: Graph
    var color: map<Id, Color>

    constructor (g: Graph)
      ensures graph == g && color == map k | k in g :: White
    {
      graph := g;
      color := map k | k in g :: White;
    }

    function ColorOf(v: Id): Color reads this { if v in color then color[v] else White }

    /** Depth-first visit; `stack` is the gray path that leads to `node`. */
    method Visit(node: Id, ghost stack: seq<Id>) returns (found: bool)
      requires ColorOf(node) == White && node in Nodes(graph)
      requires BlackDone(graph, color) && OnStack(graph, color, stack)
      requires stack != [] ==> node in Succ(graph, stack[|stack| - 1])
      requires color.Keys <= Nodes(graph)
      modifies this
      ensures found ==> !Acyclic(graph)
      ensures !found ==> BlackDone(graph, color) && OnStack(graph, color, stack)
      ensures !found ==> color.Keys <= Nodes(graph)
      ensures !found ==> Colored(old(color), Black) + {node} <= Colored(color, Black)
      decreases Nodes(graph) - Colored(color, Gray) - Colored(color, Black)
    {
      ghost var path := stack + [node];
      assert node !in Colored(color, Gray) && node !in stack;
      color := color[node := Gray];
      assert Colored(color, Black) == Colored(old(color), Black);
      assert Colored(color, Gray) == Colored(old(color), Gray) + {node};
      assert OnStack(graph, color, path);
      var todo := Succ(graph, node);
      while todo != {}
        invariant todo <= Succ(graph, node)
        invariant BlackDone(graph, color) && OnStack(graph, color, path)
        invariant color.Keys <= Nodes(graph)
        invariant Succ(graph, node) - todo <= Colored(color, Black)
        invariant Colored(old(color), Black) <= Colored(color, Black)
        decreases todo
      {
        var dep :| dep in todo;
        assert dep in Nodes(graph);
        if ColorOf(dep) == Gray {
          assert dep in Colored(color, Gray);
          BackEdgeClosesCycle(graph, path, dep);
          return true;
        }
        if ColorOf(dep) == White {
          assert node in path && node in Colored(color, Gray);
          assert Colored(old(color), Gray) <= Colored(color, Gray) by {
            assert forall v :: v in stack ==> v in path;
          }
          assert node in old(Nodes(graph) - Colored(color, Gray) - Colored(color, Black));
          var inner := Visit(dep, path);
          if inner {
            return true;
          }
        }
        assert dep in Colored(color, Black);
        todo := todo - {dep};
      }
      assert node in path && node in Colored(color, Gray);
      FinishingIsSound(graph, color, node);
      ghost var before := color;
      color := color[node := Black];
      assert Colored(color, Black) == Colored(before, Black) + {node};
      assert Colored(color, Gray) == Colored(before, Gray) - {node};
      return false;
    }
  }

  /** _has_cycle: it terminates on every graph and answers exactly. */
  method HasCycle(g: Graph) returns (found: bool)
    ensures found <==> !Acyclic(g)
  {
    var check := new CycleCheck(g);
    assert Colored(check.color, Black) == {} && Colored(check.color, Gray) == {};
    var todo := g.Keys;
    while todo != {}
      invariant todo <= g.Keys && check.graph == g && fresh(check)
      invariant BlackDone(g, check.color) && OnStack(g, check.color, [])
      invariant check.color.Keys <= Nodes(g)
      invariant g.Keys - todo <= Colored(check.color, Black)
      decreases todo
    {
      var node :| node in todo;
      if check.ColorOf(node) == White {
        var inner := check.Visit(node, []);
        if inner {
          return true;
        }
      }
      assert node !in Colored(check.color, Gray);
      todo := todo - {node};
    }
    forall v ensures !OnCycle(g, v) {
      if OnCycle(g, v) { CycleHasKey(g, v); }
    }
    return false;
  }

  // ------------------------------------------------------- the dependency walk

  ghost predicate Distinct(s: seq<Id>) { forall i, j :: 0 <= i < j < |s| ==> s[i] != s[j] }

  function Elements(s: seq<Id>): set<Id> { set v | v in s }

  /** The order puts every step after all its dependencies. */
  ghost predicate DependenciesFirst(order: seq<Id>, g: Graph) {
    forall i :: 0 <= i < |order| ==> Succ(g, order[i]) <= Elements(order[..i])
  }

  /** What a caller can check beforehand: no repeated step, no dependency outside
      the step list, no cycle through a listed step. */
  ghost predicate Walkable(steps: seq<Id>, g: Graph) {
    && Distinct(steps)
    && ClosedUnder(g, Elements(steps))
    && forall v :: v in steps ==> !OnCycle(g, v)
  }

  lemma {:induction false} DistinctCount(s: seq<Id>)
    requires Distinct(s)
    ensures |Elements(s)| == |s|
  {
    if s != [] {
      var last := |s| - 1;
      assert s == s[..last] + [s[last]];
      DistinctCount(s[..last]);
      assert Elements(s) == Elements(s[..last]) + {s[last]};
    }
  }

  lemma {:induction false} CountBound(s: seq<Id>)
    ensures |Elements(s)| <= |s|
    ensures |Elements(s)| == |s| ==> Distinct(s)
  {
    if s != [] {
      var last := |s| - 1;
      assert s == s[..last] + [s[last]];
      CountBound(s[..last]);
      assert Elements(s) == Elements(s[..last]) + {s[last]};
    }
  }

  ghost predicate NoSink(g: Graph, s: set<Id>) {
    forall v {:trigger Succ(g, v)} :: v in s ==> Succ(g, v) * s != {}
  }

  lemma LongerPath(g: Graph, p: seq<Id>, w: Id)
    requires IsPath(g, p) && Distinct(p) && w in Succ(g, p[|p| - 1]) && w !in p
    ensures IsPath(g, p + [w]) && Distinct(p + [w])
    ensures Elements(p + [w]) == Elements(p) + {w}
  {
  }

  /** In a finite set where everyone has a successor, someone is on a cycle:
      a path without repetition cannot be extended for ever. */
  lemma {:induction false} EndlessWalkCycles(g: Graph, s: set<Id>, p: seq<Id>)
    requires IsPath(g, p) && Elements(p) <= s && Distinct(p)
    requires NoSink(g, s)
    ensures exists v :: v in s && OnCycle(g, v)
    decreases |s| - |p|
  {
    var last := p[|p| - 1];
    assert last in Elements(p);
    var onward := Succ(g, last) * s;
    var w :| w in onward;
    if w in p {
      BackEdgeClosesCycle(g, p, w);
    } else {
      LongerPath(g, p, w);
      var q := p + [w];
      DistinctCount(q);
      SubsetCount(Elements(q), s);
      EndlessWalkCycles(g, s, q);
    }
  }

  lemma {:induction false} SubsetCount(a: set<Id>, b: set<Id>)
    requires a <= b
    ensures |a| <= |b|
    ensures |a| == |b| ==> a == b
  {
    if a != {} {
      var x :| x in a;
      SubsetCount(a - {x}, b - {x});
    }
  }

  /** An order with dependencies first walks downwards along every path. */
  lemma {:induction false} OrderDescends(order: seq<Id>, g: Graph, p: seq<Id>, k: nat, i: nat)
    requires DependenciesFirst(order, g) && IsPath(g, p) && 0 < k < |p|
    requires i < |order| && order[i] == p[0]
    ensures p[k] in Elements(order[..i])
  {
    if k == 1 {
      assert p[1] in Succ(g, p[0]);
    } else {
      OrderDescends(order, g, p, k - 1, i);
      var j :| 0 <= j < i && order[j] == p[k - 1];
      assert p[k] in Succ(g, p[k - 1]);
      assert Succ(g, order[j]) <= Elements(order[..j]);
    }
  }

  lemma OrderedIsAcyclic(order: seq<Id>, g: Graph, v: Id)
    requires DependenciesFirst(order, g) && Distinct(order) && v in order
    ensures !OnCycle(g, v)
  {
    if OnCycle(g, v) {
      var p :| |p| > 1 && IsPathBetween(g, p, v, v);
      var i :| 0 <= i < |order| && order[i] == v;
      OrderDescends(order, g, p, |p| - 1, i);
      assert false;
    }
  }

  /** The walk so far: `order` lists `done`, dependencies first. */
  ghost predicate WalkState(steps: seq<Id>, g: Graph, order: seq<Id>, done: set<Id>) {
    && Distinct(order)
    && Elements(order) == done <= Elements(steps)
    && DependenciesFirst(order, g)
  }

  lemma ScheduleNext(steps: seq<Id>, g: Graph, order: seq<Id>, done: set<Id>, s: Id)
    requires WalkState(steps, g, order, done) && s in steps && s !in done && Succ(g, s) <= done
    ensures WalkState(steps, g, order + [s], done + {s})
  {
    var longer := order + [s];
    assert s !in Elements(order);
    assert Elements(longer) == done + {s};
    forall i | 0 <= i < |longer| ensures Succ(g, longer[i]) <= Elements(longer[..i]) {
      assert longer[..i] == order[..i];
    }
  }

  lemma WalkComplete(steps: seq<Id>, g: Graph, order: seq<Id>, done: set<Id>)
    requires WalkState(steps, g, order, done) && |order| >= |steps|
    ensures Walkable(steps, g) && multiset(order) == multiset(steps)
  {
    CountBound(steps);
    DistinctCount(order);
    SubsetCount(done, Elements(steps));
    forall v | v in Elements(steps) ensures Succ(g, v) <= Elements(steps) && !OnCycle(g, v) {
      assert v in Elements(order);
      var k :| 0 <= k < |order| && order[k] == v;
      assert Succ(g, order[k]) <= Elements(order[..k]) <= Elements(order);
      OrderedIsAcyclic(order, g, v);
    }
    SameElementsSameMultiset(order, steps);
  }

  ghost predicate Edgeless(steps: seq<Id>, g: Graph) {
    Distinct(steps) && forall v :: v in steps ==> Succ(g, v) == {}
  }

  /** _dependency_order. `None` is the RuntimeError of the source: it is raised exactly
      when the input is not walkable. Without edges the proposal order comes back. */
  method DependencyOrder(steps: seq<Id>, g: Graph) returns (r: Option<seq<Id>>)
    ensures r.Some? <==> Walkable(steps, g)
    ensures r.Some? ==> multiset(r.value) == multiset(steps) && DependenciesFirst(r.value, g)
    ensures Edgeless(steps, g) ==> r == Some(steps)
  {
    var order: seq<Id>, done: set<Id> := [], {};
    while |order| < |steps|
      invariant WalkState(steps, g, order, done)
      invariant Edgeless(steps, g) ==> order == [] || order == steps
      decreases |steps| - |order|
    {
      var progressed := false;
      ghost var before, doneBefore := order, done;
      var i := 0;
      while i < |steps|
        invariant 0 <= i <= |steps|
        invariant WalkState(steps, g, order, done)
        invariant if progressed then |order| > |before| else order == before && done == doneBefore
        invariant !progressed ==> NoneReady(steps[..i], g, done)
        invariant Edgeless(steps, g) && before == [] ==> order == steps[..i]
      {
        var s := steps[i];
        assert Edgeless(steps, g) && before == [] ==> s !in Elements(steps[..i]);
        if s !in done && Succ(g, s) <= done {
          ScheduleNext(steps, g, order, done, s);
          order, done, progressed := order + [s], done + {s}, true;
        }
        i := i + 1;
      }
      if !progressed {
        assert steps[..i] == steps;
        NothingReadyCycles(steps, g, order, done);
        return None;
      }
      if Edgeless(steps, g) { assert steps[..i] == steps; }
    }
    WalkComplete(steps, g, order, done);
    return Some(order);
  }

  lemma {:induction false} SameElementsSameMultiset(a: seq<Id>, b: seq<Id>)
    requires Distinct(a) && Distinct(b) && Elements(a) == Elements(b)
    ensures multiset(a) == multiset(b)
  {
    forall v ensures multiset(a)[v] == multiset(b)[v] {
      DistinctMultiplicity(a, v);
      DistinctMultiplicity(b, v);
      assert v in a <==> v in Elements(b);
    }
  }

  lemma {:induction false} DistinctMultiplicity(a: seq<Id>, v: Id)
    requires Distinct(a)
    ensures multiset(a)[v] == if v in a then 1 else 0
  {
    if a != [] {
      var last := |a| - 1;
      assert a == a[..last] + [a[last]];
      DistinctMultiplicity(a[..last], v);
    }
  }

  lemma UnreadyDependency(steps: seq<Id>, g: Graph, done: set<Id>, k: nat)
    requires ClosedUnder(g, Elements(steps)) && k < |steps| && !(Succ(g, steps[k]) <= done)
    ensures Succ(g, steps[k]) * (Elements(steps) - done) != {}
  {
    var w :| w in Succ(g, steps[k]) && w !in done;
    assert steps[k] in Elements(steps);
    assert w in Succ(g, steps[k]) * (Elements(steps) - done);
  }

  ghost predicate NoneReady(steps: seq<Id>, g: Graph, done: set<Id>) {
    forall k :: 0 <= k < |steps| && steps[k] !in done ==> !(Succ(g, steps[k]) <= done)
  }

  lemma NoneReadyNoSink(steps: seq<Id>, g: Graph, done: set<Id>)
    requires ClosedUnder(g, Elements(steps)) && NoneReady(steps, g, done)
    ensures NoSink(g, Elements(steps) - done)
  {
    forall k: nat | k < |steps| && steps[k] !in done
      ensures Succ(g, steps[k]) * (Elements(steps) - done) != {}
    {
      UnreadyDependency(steps, g, done, k);
    }
  }

  lemma EndlessRest(steps: seq<Id>, g: Graph, order: seq<Id>, done: set<Id>)
    requires WalkState(steps, g, order, done) && |order| < |steps| && Distinct(steps)
    requires NoSink(g, Elements(steps) - done)
    ensures exists v :: v in Elements(steps) && OnCycle(g, v)
  {
    var rest := Elements(steps) - done;
    assert rest != {} by {
      DistinctCount(steps);
      DistinctCount(order);
      assert Elements(steps) == done + rest;
    }
    var v :| v in rest;
    var walk := [v];
    EndlessWalkCycles(g, rest, walk);
  }

  lemma NothingReadyCycles(steps: seq<Id>, g: Graph, order: seq<Id>, done: set<Id>)
    requires WalkState(steps, g, order, done) && |order| < |steps| && NoneReady(steps, g, done)
    ensures !Walkable(steps, g)
  {
    if Walkable(steps, g) {
      assert NoSink(g, Elements(steps) - done) by { NoneReadyNoSink(steps, g, done); }
      EndlessRest(steps, g, order, done);
    }
  }
}
