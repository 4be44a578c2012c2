/** Dependency graphs: cycle detection by depth-first search and memoised levels, both against
    definitions by walks. */
module Graph {

  type Graph<T(==)> = map<T, seq<T>>

  predicate Edge<T(==)>(g: Graph<T>, a: T, b: T) { a in g && b in g[a] }

  /** Consecutive nodes are joined by edges. */
  predicate IsWalk<T(==)>(g: Graph<T>, p: seq<T>) {
    p != [] && forall i | 0 <= i < |p| - 1 :: Edge(g, p[i], p[i + 1])
  }

  /** A closed walk of at least one edge. */
  predicate IsCycle<T(==)>(g: Graph<T>, p: seq<T>) { IsWalk(g, p) && |p| >= 2 && p[0] == p[|p| - 1] }

  ghost predicate Acyclic<T(!new)>(g: Graph<T>) { forall p: seq<T> :: !IsCycle(g, p) }

  /** Every edge target is a node. */
  predicate Closed<T(==)>(g: Graph<T>) { forall a | a in g :: forall b | b in g[a] :: b in g }

  predicate Distinct<T(==)>(s: seq<T>) { forall i, j | 0 <= i < j < |s| :: s[i] != s[j] }

  /** Dependencies come before dependants. */
  predicate Topological<T(==)>(g: Graph<T>, s: seq<T>) {
    && Distinct(s)
    && (forall i | 0 <= i < |s| :: s[i] in g)
    && (forall i | 0 <= i < |s| :: forall b | b in g[s[i]] :: b in s[..i])
  }

  function PositionOf<T(==)>(s: seq<T>, x: T): (i: nat)
    requires x in s
    ensures i < |s| && s[i] == x
  {
    if s[0] == x then 0 else 1 + PositionOf(s[1..], x)
  }

  /** An edge out of an ordered node goes to an earlier position. */
  lemma EdgeDescends<T>(g: Graph<T>, s: seq<T>, a: T, b: T)
    requires Topological(g, s) && a in s && Edge(g, a, b)
    ensures b in s && PositionOf(s, b) < PositionOf(s, a)
  {
    var i := PositionOf(s, a);
    assert b in s[..i];
    var j :| 0 <= j < i && s[j] == b;
    PositionUnique(s, j);
  }

  lemma {:induction false} PositionUnique<T>(s: seq<T>, i: nat)
    requires Distinct(s) && i < |s|
    ensures PositionOf(s, s[i]) == i
  {
    if i > 0 {
      var rest := s[1..];
      assert s[0] != s[i] && rest[i - 1] == s[i];
      PositionUnique(rest, i - 1);
    }
  }

  lemma {:induction false} WalkDescends<T>(g: Graph<T>, s: seq<T>, p: seq<T>)
    requires Topological(g, s) && IsWalk(g, p) && p[0] in s && |p| >= 2
    ensures p[|p| - 1] in s && PositionOf(s, p[|p| - 1]) < PositionOf(s, p[0])
  {
    assert Edge(g, p[0], p[1]);
    EdgeDescends(g, s, p[0], p[1]);
    if |p| > 2 {
      var rest := p[1..];
      assert IsWalk(g, rest) by {
        forall i | 0 <= i < |rest| - 1 ensures Edge(g, rest[i], rest[i + 1]) {
          assert Edge(g, p[i + 1], p[i + 1 + 1]);
        }
      }
      WalkDescends(g, s, rest);
    }
  }

  /** A graph whose nodes can all be ordered has no cycle. */
  lemma OrderedIsAcyclic<T(!new)>(g: Graph<T>, s: seq<T>)
    requires Topological(g, s) && forall n | n in g :: n in s
    ensures Acyclic(g)
  {
    forall p: seq<T> ensures !IsCycle(g, p) {
      if IsCycle(g, p) {
        assert Edge(g, p[0], p[1]);
        WalkDescends(g, s, p);
        assert false;
      }
    }
  }

  lemma OutEdge<T>(g: Graph<T>, a: T, i: nat)
    requires Closed(g) && a in g && i < |g[a]|
    ensures Edge(g, a, g[a][i]) && g[a][i] in g
  {
  }

  // ----- cycle detection -----

  datatype Color = White | Gray | Black

  /** Depth-first search over colours; `path` is the stack of gray nodes, `finished` the order in
      which nodes turned black. */
  class CycleFinder<T(==, !new)> {
    const g: Graph<T>
    var color: map<T, Color>
    var path: seq<T>
    ghost var finished: seq<T>

    function ColorOf(n: T): Color
      reads this`color
    {
      if n in color then color[n] else White
    }

    ghost function Whites(): set<T>
      reads this`color
    {
      set n | n in g && ColorOf(n) == White
    }

    ghost predicate Valid()
      reads this
    {
      && Closed(g)
      && (path != [] ==> IsWalk(g, path))
      && Distinct(path)
      && Topological(g, finished)
      && (forall n :: n in path <==> ColorOf(n) == Gray)
      && (forall n :: n in finished <==> ColorOf(n) == Black)
      && (forall n | n in path :: n in g)
    }

    constructor (g: Graph<T>)
      requires Closed(g)
      ensures Valid() && this.g == g && path == [] && finished == []
      ensures forall n :: ColorOf(n) == White
    {
      this.g := g;
      color := map[];
      path := [];
      finished := [];
    }

    /** A gray target closes the walk from its place on the stack. */
    method CloseCycle(target: T) returns (cycle: seq<T>)
      requires Valid() && ColorOf(target) == Gray && path != [] && Edge(g, path[|path| - 1], target)
      ensures IsCycle(g, cycle)
    {
      var i := 0;
      while path[i] != target
        invariant 0 <= i < |path|
        invariant target in path[i..]
        decreases |path| - i
      {
        i := i + 1;
      }
      cycle := path[i..] + [target];
      assert cycle[0] == target;
      forall k | 0 <= k < |cycle| - 1 ensures Edge(g, cycle[k], cycle[k + 1]) {
        if k + 1 < |path| - i {
          assert Edge(g, path[i + k], path[i + k + 1]);
        }
      }
    }

    /** Explores one white node; [] when no cycle is reachable from it. */
    method Visit(ref: T) returns (cycle: seq<T>)
      requires Valid() && ref in g && ColorOf(ref) == White
      requires path != [] ==> Edge(g, path[|path| - 1], ref)
      modifies this
      ensures cycle != [] ==> IsCycle(g, cycle)
      ensures cycle == [] ==>
                && Valid() && path == old(path) && old(finished) <= finished && ColorOf(ref) == Black
                && Whites() < old(Whites())
      decreases Whites()
    {
      hide IsWalk, Distinct, Topological, Closed, Edge;
      ghost var entry, before, order0 := path, Whites(), finished;
      Enter(ref);
      var deps := g[ref];
      for i := 0 to |deps|
        invariant Valid() && path == entry + [ref] && order0 <= finished
        invariant Whites() < before
        invariant forall j | 0 <= j < i :: deps[j] in finished
      {
        var dep := deps[i];
        OutEdge(g, ref, i);
        match ColorOf(dep)
        case Gray =>
          cycle := CloseCycle(dep);
          return;
        case White =>
          cycle := Visit(dep);
          if cycle != [] {
            return;
          }
        case Black =>
      }
      Leave(entry, ref);
      cycle := [];
    }

    /** A node goes gray and onto the stack. */
    method Enter(ref: T)
      requires Valid() && ref in g && ColorOf(ref) == White
      requires path != [] ==> Edge(g, path[|path| - 1], ref)
      modifies this
      ensures Valid() && path == old(path) + [ref] && finished == old(finished) && color == old(color)[ref := Gray]
      ensures Whites() < old(Whites())
    {
      hide IsWalk, Distinct, Topological, Closed, Edge;
      ghost var entry, before := path, Whites();
      color := color[ref := Gray];
      path := path + [ref];
      Pushed(entry, ref);
      Shrunk(before, ref);
    }

    /** A node goes black and off the stack, its dependencies finished. */
    method Leave(ghost entry: seq<T>, ref: T)
      requires Valid() && path == entry + [ref] && ref in g && forall b | b in g[ref] :: b in finished
      modifies this
      ensures Valid() && path == entry && finished == old(finished) + [ref] && color == old(color)[ref := Black]
      ensures Whites() == old(Whites())
    {
      hide IsWalk, Distinct, Topological, Closed, Edge;
      ghost var order0 := finished;
      Unstacked(entry, ref);
      path := path[..|path| - 1];
      color := color[ref := Black];
      finished := finished + [ref];
      assert path == entry && finished[..|finished| - 1] == order0;
      Popped(entry, ref, order0);
    }

    /** What is below the top of the stack. */
    lemma Unstacked(entry: seq<T>, ref: T)
      requires Valid() && path == entry + [ref]
      ensures ref !in entry && ref !in finished && Distinct(entry) && (entry != [] ==> IsWalk(g, entry))
      ensures forall n :: n in entry <==> (ColorOf(n) == Gray && n != ref)
      ensures forall n | n in entry :: n in g
    {
      hide Topological, Closed, Edge;
      assert path[|entry|] == ref && entry == path[..|entry|] && ColorOf(ref) == Gray;
      assert forall n :: n in path <==> n in entry || n == ref;
    }

    lemma Shrunk(before: set<T>, ref: T)
      requires ref in before && ColorOf(ref) != White
      requires forall n | n in g :: ColorOf(n) == White ==> n in before
      ensures Whites() < before
    {
    }

    /** Pushing a white node keeps the stack a walk without repeats. */
    lemma Pushed(entry: seq<T>, ref: T)
      requires Closed(g) && ref in g && path == entry + [ref]
      requires entry != [] ==> IsWalk(g, entry) && Edge(g, entry[|entry| - 1], ref)
      requires Distinct(entry) && ref !in entry && Topological(g, finished) && ref !in finished
      requires forall n :: n in entry <==> (ColorOf(n) == Gray && n != ref)
      requires ColorOf(ref) == Gray
      requires forall n :: n in finished <==> ColorOf(n) == Black
      requires forall n | n in entry :: n in g
      ensures Valid()
    {
      forall i | 0 <= i < |path| - 1 ensures Edge(g, path[i], path[i + 1]) {
        if i + 1 < |entry| {
          assert Edge(g, entry[i], entry[i + 1]);
        }
      }
    }

    /** A node is finished after everything it depends on. */
    lemma Popped(entry: seq<T>, ref: T, order0: seq<T>)
      requires Closed(g) && ref in g && path == entry && ref !in entry
      requires entry != [] ==> IsWalk(g, entry)
      requires Distinct(entry) && finished != [] && finished[|finished| - 1] == ref
      requires var was := finished[..|finished| - 1];
               Topological(g, was) && ref !in was && order0 <= was && forall b | b in g[ref] :: b in was
      requires forall n :: n in entry <==> ColorOf(n) == Gray
      requires forall n :: n in finished <==> ColorOf(n) == Black
      requires forall n | n in entry :: n in g
      ensures Valid() && order0 <= finished
    {
      var was := finished[..|finished| - 1];
      forall i | 0 <= i < |finished| ensures forall b | b in g[finished[i]] :: b in finished[..i] {
        if i < |was| {
          assert finished[i] == was[i] && finished[..i] == was[..i];
        }
      }
    }

    /** Nil exactly when the graph is acyclic; a returned path is a closed walk of real edges. */
    method IndexOfCycle(order: seq<T>) returns (cycle: seq<T>)
      requires Valid() && path == [] && finished == [] && (forall n :: ColorOf(n) == White)
      requires forall n :: n in order <==> n in g
      modifies this
      ensures cycle == [] <==> Acyclic(g)
      ensures cycle != [] ==> IsCycle(g, cycle)
    {
      for i := 0 to |order|
        invariant Valid() && path == []
        invariant forall j | 0 <= j < i :: order[j] in finished
      {
        if ColorOf(order[i]) == White {
          ghost var was := finished;
          cycle := Visit(order[i]);
          if cycle != [] {
            return;
          }
          assert order[i] in finished;
        }
      }
      forall n | n in g ensures n in finished {
        assert n in order;
      }
      OrderedIsAcyclic(g, finished);
      cycle := [];
    }
  }

  // ----- levels -----

  /** Some walk of `k` edges leaves `n` and none is longer. */
  ghost predicate IsLevel<T(!new)>(g: Graph<T>, n: T, k: nat) {
    && (exists p: seq<T> :: IsWalk(g, p) && p[0] == n && |p| == k + 1)
    && (forall p: seq<T> :: IsWalk(g, p) && p[0] == n ==> |p| <= k + 1)
  }

  lemma LevelUnique<T(!new)>(g: Graph<T>, n: T, j: nat, k: nat)
    requires IsLevel(g, n, j) && IsLevel(g, n, k)
    ensures j == k
  {
    var p: seq<T> :| IsWalk(g, p) && p[0] == n && |p| == j + 1;
    var q: seq<T> :| IsWalk(g, q) && q[0] == n && |q| == k + 1;
  }

  lemma ConsWalk<T>(g: Graph<T>, n: T, p: seq<T>)
    requires IsWalk(g, p) && Edge(g, n, p[0])
    ensures IsWalk(g, [n] + p)
  {
    var w := [n] + p;
    forall i | 0 <= i < |w| - 1 ensures Edge(g, w[i], w[i + 1]) {
      if i > 0 {
        assert Edge(g, p[i - 1], p[i]);
      }
    }
  }

  lemma TailWalk<T>(g: Graph<T>, p: seq<T>)
    requires IsWalk(g, p) && |p| >= 2
    ensures IsWalk(g, p[1..]) && Edge(g, p[0], p[1])
  {
    var t := p[1..];
    forall i | 0 <= i < |t| - 1 ensures Edge(g, t[i], t[i + 1]) {
      assert Edge(g, p[i + 1], p[i + 1 + 1]);
    }
    assert Edge(g, p[0], p[0 + 1]);
  }

  /** What the recursion computes: one more than the largest level among the dependencies. */
  lemma LevelStep<T(!new)>(g: Graph<T>, n: T, levels: map<T, nat>, k: nat)
    requires n in g && forall b | b in g[n] :: b in levels && IsLevel(g, b, levels[b]) && levels[b] + 1 <= k
    requires k == 0 || exists b | b in g[n] :: levels[b] + 1 == k
    ensures IsLevel(g, n, k)
  {
    if k == 0 {
      assert IsWalk(g, [n]) && [n][0] == n;
    } else {
      var b :| b in g[n] && levels[b] + 1 == k;
      var p: seq<T> :| IsWalk(g, p) && p[0] == b && |p| == levels[b] + 1;
      ConsWalk(g, n, p);
      assert ([n] + p)[0] == n;
    }
    forall p: seq<T> | IsWalk(g, p) && p[0] == n ensures |p| <= k + 1 {
      if |p| >= 2 {
        TailWalk(g, p);
        assert p[1..][0] in g[n];
      }
    }
  }

  /** Levels strictly decrease along edges, and level 0 means no edges. */
  lemma LevelDescends<T(!new)>(g: Graph<T>, n: T, k: nat)
    requires n in g && IsLevel(g, n, k)
    ensures forall b, j: nat | b in g[n] && IsLevel(g, b, j) :: j < k
    ensures k == 0 <==> g[n] == []
  {
    forall b, j: nat | b in g[n] && IsLevel(g, b, j) ensures j < k {
      var p: seq<T> :| IsWalk(g, p) && p[0] == b && |p| == j + 1;
      ConsWalk(g, n, p);
      assert ([n] + p)[0] == n;
    }
    if g[n] == [] {
      var p: seq<T> :| IsWalk(g, p) && p[0] == n && |p| == k + 1;
      if k > 0 {
        TailWalk(g, p);
      }
    } else {
      var b := g[n][0];
      assert IsWalk(g, [n, b]) && [n, b][0] == n;
    }
  }

  lemma {:induction false} DistinctFits<T>(s: seq<T>, nodes: set<T>)
    requires Distinct(s) && forall x | x in s :: x in nodes
    ensures |s| <= |nodes|
  {
    if s != [] {
      var last := s[|s| - 1];
      var front := s[..|s| - 1];
      forall x | x in front ensures x in nodes - {last} {
        var i :| 0 <= i < |front| && front[i] == x;
        assert s[i] != s[|s| - 1];
      }
      DistinctFits(front, nodes - {last});
    }
  }

  /** In an acyclic closed graph a walk repeats no node, so it is no longer than the graph. */
  lemma WalkFits<T(!new)>(g: Graph<T>, p: seq<T>)
    requires Acyclic(g) && Closed(g) && IsWalk(g, p) && p[0] in g
    ensures Distinct(p) && |p| <= |g.Keys|
  {
    forall i, j | 0 <= i < j < |p| ensures p[i] != p[j] {
      var c := p[i..j + 1];
      forall k | 0 <= k < |c| - 1 ensures Edge(g, c[k], c[k + 1]) {
        assert Edge(g, p[i + k], p[i + k + 1]);
      }
      assert IsWalk(g, c);
      assert !IsCycle(g, c);
    }
    forall x | x in p ensures x in g.Keys {
      var i :| 0 <= i < |p| && p[i] == x;
      if i > 0 {
        assert Edge(g, p[i - 1], p[i - 1 + 1]);
      }
    }
    DistinctFits(p, g.Keys);
  }

  /** Memoised level computation. */
  class Leveler<T(==, !new)> {
    const g: Graph<T>
    var levels: map<T, nat>

    ghost predicate Valid()
      reads this
    {
      Closed(g) && Acyclic(g) && forall n | n in levels :: n in g && IsLevel(g, n, levels[n])
    }

    constructor (g: Graph<T>)
      requires Closed(g) && Acyclic(g)
      ensures Valid() && this.g == g && levels == map[]
    {
      this.g := g;
      levels := map[];
    }

    /** The level of one node; `stack` is the chain of dependants being computed. */
    method LevelOf(ref: T, ghost stack: seq<T>) returns (lvl: nat)
      requires Valid() && ref in g
      requires IsWalk(g, stack) && stack[0] in g && stack[|stack| - 1] == ref
      modifies this
      ensures Valid() && IsLevel(g, ref, lvl)
      ensures ref in levels && levels[ref] == lvl && old(levels).Keys <= levels.Keys
      ensures forall n | n in old(levels) :: levels[n] == old(levels)[n]
      decreases |g.Keys| - |stack|
    {
      if ref in levels {
        return levels[ref];
      }
      WalkFits(g, stack);
      lvl := 0;
      var deps := g[ref];
      for i := 0 to |deps|
        invariant Valid() && old(levels).Keys <= levels.Keys
        invariant forall n | n in old(levels) :: levels[n] == old(levels)[n]
        invariant forall j | 0 <= j < i :: deps[j] in levels && levels[deps[j]] + 1 <= lvl
        invariant lvl == 0 || exists j | 0 <= j < i :: deps[j] in levels && levels[deps[j]] + 1 == lvl
      {
        ghost var earlier := levels;
        assert Edge(g, ref, deps[i]);
        Extended(stack, deps[i]);
        var dl := LevelOf(deps[i], stack + [deps[i]]);
        if dl + 1 > lvl {
          lvl := dl + 1;
        }
      }
      assert forall b | b in deps :: exists j | 0 <= j < |deps| :: deps[j] == b;
      LevelStep(g, ref, levels, lvl);
      if ref in levels {
        LevelUnique(g, ref, levels[ref], lvl);
      }
      levels := levels[ref := lvl];
    }

    lemma Extended(stack: seq<T>, dep: T)
      requires Acyclic(g) && Closed(g)
      requires IsWalk(g, stack) && stack[0] in g && Edge(g, stack[|stack| - 1], dep)
      ensures IsWalk(g, stack + [dep]) && (stack + [dep])[0] in g && |stack + [dep]| <= |g.Keys|
    {
      var w := stack + [dep];
      forall i | 0 <= i < |w| - 1 ensures Edge(g, w[i], w[i + 1]) {
        if i + 1 < |stack| {
          assert Edge(g, stack[i], stack[i + 1]);
        }
      }
      WalkFits(g, w);
    }

    /** Levels of all nodes, whatever the visiting order. */
    method Levels(order: seq<T>) returns (out: map<T, nat>)
      requires Valid() && levels == map[]
      requires forall n :: n in order <==> n in g
      modifies this
      ensures out.Keys == g.Keys && forall n | n in g :: IsLevel(g, n, out[n])
    {
      for i := 0 to |order|
        invariant Valid() && forall j | 0 <= j < i :: order[j] in levels
      {
        assert order[i] in order;
        var l := LevelOf(order[i], [order[i]]);
      }
      forall n | n in g ensures n in levels {
        assert n in order;
      }
      out := levels;
    }
  }
}
