/** Dependency edges (v5/work.py:219-307): an edge is refused exactly when it would let a step depend on itself, and is drawn
    from the step to what it depends on. */
module Edges {
  import opened Types
  import opened Graphs
  import opened Work
  import opened Invariants
  import opened RowWrites

  /** b is reached from a along dependencies, a being reached from itself. */
  ghost predicate Reaches(g: Graph, a: Id, b: Id) { exists p :: IsPathBetween(g, p, a, b) }

  lemma ReachesItself(g: Graph, a: Id)
    ensures Reaches(g, a, a)
  {
    assert IsPathBetween(g, [a], a, a);
  }

  lemma ReachesOn(g: Graph, a: Id, b: Id, c: Id)
    requires Reaches(g, a, b) && c in Succ(g, b)
    ensures Reaches(g, a, c)
  {
    var p :| IsPathBetween(g, p, a, b);
    assert IsPathBetween(g, p + [c], a, c);
  }

  /** x is reached from some vertex of s. */
  ghost predicate Below(g: Graph, s: set<Id>, x: Id) { exists a :: a in s && Reaches(g, a, x) }

  lemma BelowOn(g: Graph, s: set<Id>, x: Id, y: Id)
    requires Below(g, s, x) && y in Succ(g, x)
    ensures Below(g, s, y)
  {
    hide Reaches;
    var a :| a in s && Reaches(g, a, x);
    ReachesOn(g, a, x, y);
  }

  lemma MembersBelow(g: Graph, s: set<Id>)
    ensures forall a :: a in s ==> Below(g, s, a)
  {
    forall a | a in s ensures Below(g, s, a) { ReachesItself(g, a); }
  }

  /** A path that reaches v has a first arrival at v; up to there it does not use v's own edges. */
  lemma {:induction false} FirstArrival(g: Graph, p: seq<Id>, v: Id) returns (q: seq<Id>)
    requires IsPath(g, p) && p[|p| - 1] == v
    ensures IsPathBetween(g, q, p[0], v)
    ensures forall i :: 0 <= i < |q| - 1 ==> q[i] != v
    decreases |p|
  {
    if i :| 0 <= i < |p| - 1 && p[i] == v {
      q := FirstArrival(g, p[..i + 1], v);
    } else {
      q := p;
    }
  }

  /** g with v depending on exactly s. */
  function Redirected(g: Graph, v: Id, s: set<Id>): Graph { g[v := s] }

  /** The exact condition for an acyclic graph to stay so when v is made to depend on s: v is not reached from any of s. */
  lemma RedirectedAcyclicIff(g: Graph, v: Id, s: set<Id>)
    requires Acyclic(g)
    ensures Acyclic(Redirected(g, v, s)) <==> forall a :: a in s ==> !Reaches(g, a, v)
  {
    if a :| a in s && Reaches(g, a, v) {
      ArrivalClosesCycle(g, v, s, a);
    } else {
      forall x ensures !OnCycle(Redirected(g, v, s), x) {
        if OnCycle(Redirected(g, v, s), x) { CycleArrives(g, v, s, x); }
      }
    }
  }

  lemma ArrivalClosesCycle(g: Graph, v: Id, s: set<Id>, a: Id)
    requires a in s && Reaches(g, a, v)
    ensures !Acyclic(Redirected(g, v, s))
  {
    var h := Redirected(g, v, s);
    var p :| IsPathBetween(g, p, a, v);
    var q := FirstArrival(g, p, v);
    var c := [v] + q;
    assert IsPath(h, c) by {
      forall i | 0 < i < |c| ensures c[i] in Succ(h, c[i - 1]) {
        if i > 1 { assert q[i - 1] in Succ(g, q[i - 2]) && q[i - 2] != v; }
      }
    }
    assert IsPathBetween(h, c, v, v);
    assert OnCycle(h, v);
  }

  /** Where v is not below s, walking on from below s never comes to v and so uses only edges of g. */
  lemma {:induction false} WalkStaysBelow(g: Graph, v: Id, s: set<Id>, p: seq<Id>, i: nat, k: nat)
    requires !Below(g, s, v) && IsPath(Redirected(g, v, s), p) && i <= k < |p| && Below(g, s, p[i])
    ensures Below(g, s, p[k])
    decreases k - i
  {
    hide Below;
    if i < k {
      assert p[i + 1] in Succ(Redirected(g, v, s), p[i]);
      assert p[i] != v;
      BelowOn(g, s, p[i], p[i + 1]);
      WalkStaysBelow(g, v, s, p, i + 1, k);
    }
  }

  lemma AvoidsRedirected(g: Graph, v: Id, s: set<Id>, p: seq<Id>)
    requires IsPath(Redirected(g, v, s), p) && forall i :: 0 <= i < |p| - 1 ==> p[i] != v
    ensures IsPath(g, p)
  {
    forall k | 0 < k < |p| ensures p[k] in Succ(g, p[k - 1]) {
      assert p[k] in Succ(Redirected(g, v, s), p[k - 1]);
    }
  }

  lemma CycleArrives(g: Graph, v: Id, s: set<Id>, x: Id)
    requires Acyclic(g) && OnCycle(Redirected(g, v, s), x)
    ensures Below(g, s, v)
  {
    hide Below, Redirected;
    var h := Redirected(g, v, s);
    var p :| |p| > 1 && IsPathBetween(h, p, x, x);
    if !Below(g, s, v) {
      if i :| 0 <= i < |p| - 1 && p[i] == v {
        assert p[i + 1] in s by { LeavesTo(g, v, s, p, i); }
        MembersBelow(g, s);
        WalkStaysBelow(g, v, s, p, i + 1, |p| - 1);
        WalkStaysBelow(g, v, s, p, 0, i);
      } else {
        AvoidsRedirected(g, v, s, p);
        ClosedWalkCycles(g, p);
      }
    }
  }

  lemma ClosedWalkCycles(g: Graph, p: seq<Id>)
    requires IsPath(g, p) && |p| > 1 && p[0] == p[|p| - 1]
    ensures !Acyclic(g)
  {
    assert IsPathBetween(g, p, p[0], p[0]);
    assert OnCycle(g, p[0]);
  }

  lemma LeavesTo(g: Graph, v: Id, s: set<Id>, p: seq<Id>, i: nat)
    requires IsPath(Redirected(g, v, s), p) && i + 1 < |p| && p[i] == v
    ensures p[i + 1] in s
  {
    assert p[i + 1] in Succ(Redirected(g, v, s), p[i]);
  }

  // ----------------------------------------------------------------------------- theorems

  /** add_dependency commits exactly for a plan at the expected revision and two different steps of it, of which the second
      does not already depend on the first, directly or through others. Then the step, and its plan's graph, depend on
      exactly one more: the edge goes from the step to what it depends on. */
  lemma DependencyCommitsIff(d: Db, plan: Id, step: Id, on: Id, expected: nat)
    requires plan in d.plans ==> Acyclic(d.plans[plan].graph)
    ensures var r := Work.Apply(d, AddDependency(plan, step, on, expected));
            r.res.Ok? <==>
              && plan in d.plans && d.plans[plan].revision == expected && step != on
              && step in d.steps && d.steps[step].planId == plan && on in d.steps && d.steps[on].planId == plan
              && !Reaches(d.plans[plan].graph, on, step)
    ensures var r := Work.Apply(d, AddDependency(plan, step, on, expected));
            if r.res.Ok?
            then && plan in r.db.plans && DrawsEdge(d.plans[plan].graph, r.db.plans[plan].graph, step, on)
                 && r.db == d.(plans := d.plans[plan := d.plans[plan].(graph := r.db.plans[plan].graph, revision := expected + 1)],
                               steps := d.steps[step := d.steps[step].(dependsOn := d.steps[step].dependsOn + {on})])
            else r.db == d
  {
    hide Acyclic, Reaches;
    if plan in d.plans { EdgeAcyclicIff(d.plans[plan].graph, step, on); }
  }

  /** h has the edges of g and one more. */
  ghost predicate DrawsEdge(g: Graph, h: Graph, from: Id, to: Id) {
    forall v {:trigger Succ(h, v)} :: Succ(h, v) == Succ(g, v) + (if v == from then {to} else {})
  }

  lemma EdgeAcyclicIff(g: Graph, v: Id, on: Id)
    requires Acyclic(g)
    ensures Acyclic(g[v := Succ(g, v) + {on}]) <==> !Reaches(g, on, v)
  {
    hide Acyclic, Reaches;
    RedirectedAcyclicIff(g, v, Succ(g, v) + {on});
    forall a | a in Succ(g, v) ensures !Reaches(g, a, v) {
      if Reaches(g, a, v) { SuccessorReturns(g, v, a); }
    }
  }

  lemma SuccessorReturns(g: Graph, v: Id, a: Id)
    requires a in Succ(g, v) && Reaches(g, a, v)
    ensures !Acyclic(g)
  {
    var p :| IsPathBetween(g, p, a, v);
    assert IsPathBetween(g, [v] + p, v, v);
    assert OnCycle(g, v);
  }

  lemma OpenPlan(s: PlanStatus)
    ensures !PlanTerminal(s) <==> s in {PDraft, PBlocked}
  {
  }

  /** create_step commits exactly for a plan not yet terminal whose graph does not already lead from a dependency of the
      step to the step's own number. The step is then PENDING, of that plan, with its dependencies in the row and in the
      graph. */
  lemma StepCommitsIff(d: Db, plan: Id, required: bool, dependsOn: set<Id>, capability: string)
    requires Inv(d)
    ensures var r, s := Work.Apply(d, CreateStep(plan, required, dependsOn, capability)), Id(StepK, d.next);
            r.res.Ok? <==>
              && plan in d.plans && d.plans[plan].status in {PDraft, PBlocked}
              && forall a :: a in dependsOn ==> !Reaches(d.plans[plan].graph, a, s)
    ensures var r, s := Work.Apply(d, CreateStep(plan, required, dependsOn, capability)), Id(StepK, d.next);
            if r.res.Ok?
            then && s !in d.steps && r.res.made == Some(s)
                 && r.db == d.(next := d.next + 1,
                      steps := d.steps[s := Step(0, plan, SPending, required, dependsOn, capability)],
                      plans := d.plans[plan := d.plans[plan].(graph := d.plans[plan].graph[s := dependsOn],
                                                              revision := d.plans[plan].revision + 1)])
            else r.db == d
  {
    hide Inv, Acyclic, Reaches;
    MintedKeys(d);
    InvHas(d, PlansAcyclic);
    if plan in d.plans {
      var g, s := d.plans[plan].graph, Id(StepK, d.next);
      RedirectedAcyclicIff(g, s, dependsOn);
      OpenPlan(d.plans[plan].status);
    }
  }
}
