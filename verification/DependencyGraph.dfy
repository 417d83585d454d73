/** The dependency graph of tasks: the colouring depth-first validator, and what stays true of
    the graph of all loaded plans. */
module DependencyGraph {
  import opened Common

  type Graph = map<string, seq<string>>

  /** `t` waits for the stored task `d`; edges that leave the graph are no edges of it. */
  predicate Edge(g: Graph, t: string, d: string) {
    t in g && d in g && d in g[t]
  }

  ghost predicate Closed(g: Graph) {
    forall t, d :: t in g && d in g[t] ==> d in g
  }

  /** Whatever is ranked waits only for tasks of lower rank. */
  ghost predicate Descends(g: Graph, rank: map<string, nat>) {
    forall t, d :: Edge(g, t, d) && t in rank ==> d in rank && rank[d] < rank[t]
  }

  /** A witness that the graph has no cycle. */
  ghost predicate Ranked(g: Graph, rank: map<string, nat>) {
    (forall t :: t in g ==> t in rank) && Descends(g, rank)
  }

  ghost predicate Acyclic(g: Graph) {
    exists rank :: Ranked(g, rank)
  }

  ghost predicate Sound(g: Graph) {
    Closed(g) && Acyclic(g)
  }

  predicate Path(g: Graph, path: seq<string>) {
    && (forall i :: 0 <= i < |path| ==> path[i] in g)
    && (forall i, j :: 0 <= i && j == i + 1 < |path| ==> Edge(g, path[i], path[j]))
  }

  predicate Cycle(g: Graph, path: seq<string>) {
    Path(g, path) && |path| >= 2 && path[0] == path[|path| - 1]
  }

  lemma {:induction false} RankFallsAlongPath(g: Graph, rank: map<string, nat>, path: seq<string>, i: nat)
    requires Ranked(g, rank) && Path(g, path) && i < |path|
    ensures rank[path[i]] + i <= rank[path[0]]
  {
    if i > 0 {
      RankFallsAlongPath(g, rank, path, i - 1);
      assert Edge(g, path[i - 1], path[i]);
    }
  }

  lemma RankedHasNoCycle(g: Graph, rank: map<string, nat>, path: seq<string>)
    requires Ranked(g, rank)
    ensures !Cycle(g, path)
  {
    if Cycle(g, path) {
      RankFallsAlongPath(g, rank, path, |path| - 1);
    }
  }

  type Colours = map<string, int>

  /** 1 marks a task on the current path, 2 a finished one; `rank` is the finishing order. */
  ghost predicate Coloured(g: Graph, state: Colours, rank: map<string, nat>, trail: seq<string>) {
    && (forall t :: t in state ==> t in g && state[t] in {1, 2})
    && (forall t :: t in trail <==> t in state && state[t] == 1)
    && (forall t :: t in rank <==> t in state && state[t] == 2)
    && Descends(g, rank)
  }

  lemma Shrinking(g: Graph, state: Colours, rank: map<string, nat>, t: string)
    requires t in g && t !in state
    ensures Left(g, state[t := 1]) < Left(g, state) && Grew(state, state[t := 1], rank, rank)
  {
    assert g.Keys - state[t := 1].Keys < g.Keys - state.Keys by {
      assert t in g.Keys - state.Keys && t !in g.Keys - state[t := 1].Keys;
    }
    Smaller(g.Keys - state[t := 1].Keys, g.Keys - state.Keys);
  }

  lemma Entering(g: Graph, state: Colours, rank: map<string, nat>, trail: seq<string>, t: string)
    requires Coloured(g, state, rank, trail) && t in g && t !in state
    ensures Coloured(g, state[t := 1], rank, trail + [t])
    ensures Left(g, state[t := 1]) < Left(g, state) && Grew(state, state[t := 1], rank, rank)
  {
    hide Left, Grew, Descends;
    Shrinking(g, state, rank, t);
    forall k
      ensures k in trail + [t] <==> k in state[t := 1] && state[t := 1][k] == 1
    {
      assert k in trail + [t] <==> k in trail || k == t;
    }
  }

  lemma Leaving(g: Graph, state: Colours, rank: map<string, nat>, trail: seq<string>, t: string)
    requires Coloured(g, state, rank, trail + [t]) && t !in trail
    requires t in g && Finished(g, g[t], |g[t]|, rank)
    ensures Coloured(g, state[t := 2], rank[t := Above(rank)], trail)
  {
  }

  /** The first `n` dependencies are finished. */
  ghost predicate Finished(g: Graph, dependencies: seq<string>, n: nat, rank: map<string, nat>) {
    forall k :: 0 <= k < n <= |dependencies| ==> dependencies[k] in g ==> dependencies[k] in rank
  }

  lemma StepDown(g: Graph, path: seq<string>, d: string)
    requires Path(g, path) && path != [] && d in g && d in g[path[|path| - 1]]
    ensures Path(g, path + [d])
  {
  }

  ghost function Left(g: Graph, state: Colours): nat {
    |g.Keys - state.Keys|
  }

  /** No colour and no rank is taken back. */
  ghost predicate Grew(before: Colours, after: Colours, was: map<string, nat>, rank: map<string, nat>) {
    before.Keys <= after.Keys && was.Keys <= rank.Keys
  }

  lemma NothingYet(g: Graph, state: Colours, rank: map<string, nat>, dependencies: seq<string>)
    ensures Grew(state, state, rank, rank) && Left(g, state) <= Left(g, state) && Finished(g, dependencies, 0, rank)
  {
  }

  lemma OneMore(g: Graph, dependencies: seq<string>, n: nat, rank: map<string, nat>)
    requires n < |dependencies| && Finished(g, dependencies, n, rank)
    requires dependencies[n] in g ==> dependencies[n] in rank
    ensures Finished(g, dependencies, n + 1, rank)
  {
  }

  lemma Growing(g: Graph, a: Colours, b: Colours, c: Colours,
                p: map<string, nat>, q: map<string, nat>, r: map<string, nat>, dependencies: seq<string>, n: nat)
    requires Grew(a, b, p, q) && Grew(b, c, q, r) && Finished(g, dependencies, n, q)
    ensures Grew(a, c, p, r) && Left(g, c) <= Left(g, a) && Finished(g, dependencies, n, r)
  {
    SubsetSize(g.Keys - c.Keys, g.Keys - a.Keys);
  }

  lemma BackEdge(g: Graph, trail: seq<string>, t: string) returns (cycle: seq<string>)
    requires Path(g, trail + [t]) && t in trail
    ensures Cycle(g, cycle)
  {
    var i :| 0 <= i < |trail| && trail[i] == t;
    var path := trail + [t];
    cycle := path[i..];
    forall j, k | 0 <= j && k == j + 1 < |cycle|
      ensures Edge(g, cycle[j], cycle[k])
    {
      assert Edge(g, path[i + j], path[i + k]);
    }
  }

  class Validator {
    var state: Colours
    ghost var rank: map<string, nat>

    constructor ()
      ensures state == map[] && rank == map[]
    {
      state, rank := map[], map[];
    }

    /** Either every task reachable from `t` is finished, or the cycle it hangs on is found. */
    method Visit(g: Graph, t: string, ghost trail: seq<string>) returns (ok: bool, ghost cycle: seq<string>)
      requires t in g && Path(g, trail + [t]) && Coloured(g, state, rank, trail)
      modifies this
      ensures ok ==> Coloured(g, state, rank, trail) && t in rank
      ensures ok ==> Grew(old(state), state, old(rank), rank)
      ensures !ok ==> Cycle(g, cycle)
      decreases Left(g, state), 0
    {
      ok, cycle := true, [];
      if t in state {
        if state[t] == 1 {
          cycle := BackEdge(g, trail, t);
          ok := false;
        }
        return;
      }
      Entering(g, state, rank, trail, t);
      state := state[t := 1];
      ok, cycle := VisitAll(g, t, trail);
      if ok {
        Leaving(g, state, rank, trail, t);
        state, rank := state[t := 2], rank[t := Above(rank)];
      }
    }

    /** The loop over the dependencies of `t`. */
    method VisitAll(g: Graph, t: string, ghost trail: seq<string>) returns (ok: bool, ghost cycle: seq<string>)
      requires t in g && t !in trail && Path(g, trail + [t]) && Coloured(g, state, rank, trail + [t])
      modifies this
      ensures ok ==> Coloured(g, state, rank, trail + [t]) && Finished(g, g[t], |g[t]|, rank)
      ensures ok ==> Grew(old(state), state, old(rank), rank)
      ensures !ok ==> Cycle(g, cycle)
      decreases Left(g, state), 1
    {
      hide Coloured, Path, Grew, Left, Finished, Cycle;
      ok, cycle := true, [];
      NothingYet(g, state, rank, g[t]);
      ghost var inner := trail + [t];
      assert inner[|inner| - 1] == t;
      var j := 0;
      while j < |g[t]|
        invariant 0 <= j <= |g[t]| && ok
        invariant Coloured(g, state, rank, inner)
        invariant Grew(old(state), state, old(rank), rank) && Left(g, state) <= Left(g, old(state))
        invariant Finished(g, g[t], j, rank)
      {
        var dep := g[t][j];
        if dep in g {
          StepDown(g, inner, dep);
          ghost var before, was := state, rank;
          ok, cycle := Visit(g, dep, inner);
          if !ok { return; }
          Growing(g, old(state), before, state, old(rank), was, rank, g[t], j);
        }
        OneMore(g, g[t], j, rank);
        j := j + 1;
      }
    }
  }

  lemma Smaller(a: set<string>, b: set<string>)
    requires a < b
    ensures |a| < |b|
  {
    var x :| x in b && x !in a;
    assert a <= b - {x};
    SubsetSize(a, b - {x});
  }

  /** Some number above every rank in use. */
  ghost function Above(rank: map<string, nat>): (top: nat)
    ensures forall k :: k in rank ==> rank[k] < top
    decreases |rank|
  {
    if rank == map[] then 0
    else
      var k :| k in rank;
      var rest := rank - {k};
      assert |rest| < |rank| by { assert rest.Keys == rank.Keys - {k}; Smaller(rest.Keys, rank.Keys); }
      var r := Above(rest);
      assert forall l :: l in rank ==> l == k || l in rest;
      if rank[k] < r then r else rank[k] + 1
  }

  /** `validate_dependency_graph`: terminates, and raises exactly on a cycle. */
  method ValidateDependencyGraph(g: Graph, order: seq<string>) returns (ok: bool)
    requires forall t :: t in order <==> t in g
    ensures ok <==> Acyclic(g)
    ensures !ok <==> exists cycle :: Cycle(g, cycle)
  {
    var v := new Validator();
    for i := 0 to |order|
      invariant Coloured(g, v.state, v.rank, [])
      invariant forall k :: 0 <= k < i ==> order[k] in v.rank
    {
      assert order[i] in order;
      ghost var cycle;
      assert [] + [order[i]] == [order[i]];
      ok, cycle := v.Visit(g, order[i], []);
      if !ok {
        forall rank | Ranked(g, rank)
          ensures false
        {
          RankedHasNoCycle(g, rank, cycle);
        }
        return;
      }
    }
    ok := true;
    assert Ranked(g, v.rank) by {
      forall t | t in g
        ensures t in v.rank
      {
        assert t in order;
      }
    }
    forall cycle | Cycle(g, cycle)
      ensures false
    {
      RankedHasNoCycle(g, v.rank, cycle);
    }
  }

  // ---------------------------------------------------------------- the graph of all plans

  /** Loading adds the plan's new tasks and leaves every stored task as it is. */
  function Merged(g: Graph, plan: Graph): Graph {
    plan + g
  }

  /** A plan may depend on itself and on anything stored, but on nothing else. */
  predicate Grounded(g: Graph, plan: Graph) {
    forall t :: t in plan ==> forall d :: d in plan[t] ==> d in plan || d in g
  }

  lemma MergingStaysSound(g: Graph, plan: Graph)
    requires Sound(g) && Acyclic(plan) && Grounded(g, plan)
    ensures Sound(Merged(g, plan))
  {
    var old_, new_ :| Ranked(g, old_) && Ranked(plan, new_);
    var base := Above(old_);
    var rank := map t | t in plan.Keys + g.Keys :: if t in g then old_[t] else base + new_[t];
    forall t, d | Edge(Merged(g, plan), t, d)
      ensures rank[d] < rank[t]
    {
      if t in g {
        assert Edge(g, t, d);
      } else if d !in g {
        assert Edge(plan, t, d);
      }
    }
    assert Ranked(Merged(g, plan), rank);
    assert Closed(Merged(g, plan));
  }

  /** In a sound graph some open task waits for no open task. */
  lemma {:induction false} SomeTaskIsUnblocked(g: Graph, open: set<string>) returns (t: string)
    requires Sound(g) && open != {} && open <= g.Keys
    ensures t in open && forall d :: d in g[t] ==> d !in open
  {
    var rank :| Ranked(g, rank);
    t := Lowest(rank, open);
  }

  lemma {:induction false} Lowest(rank: map<string, nat>, open: set<string>) returns (t: string)
    requires open != {} && open <= rank.Keys
    ensures t in open && forall o :: o in open ==> rank[t] <= rank[o]
    decreases |open|
  {
    t :| t in open;
    if open != {t} {
      var u := Lowest(rank, open - {t});
      if rank[u] < rank[t] { t := u; }
    }
  }
}
