/** What the layers mean: a partition, upward edges, longest-path depth, and success exactly on acyclic graphs. */
module LayerLaws {
  import opened Prelude
  import opened Names
  import opened Workflow
  import opened Layers

  /** The nodes emitted by the first `k` layers. */
  ghost function Done(nodes: set<string>, edges: seq<Edge>, k: nat): set<string> {
    if k == 0 then {} else
      var d := Done(nodes, edges, k - 1);
      d + Frontier(nodes, edges, d)
  }

  ghost predicate AtDepth(nodes: set<string>, edges: seq<Edge>, n: string, k: nat) {
    n in Frontier(nodes, edges, Done(nodes, edges, k))
  }

  ghost predicate InLayer(layers: seq<seq<string>>, i: nat, n: string) {
    i < |layers| && n in layers[i]
  }

  // --------------------------------------------------------------- the layers are the frontiers

  lemma {:induction false} PeelLayers(nodes: set<string>, edges: seq<Edge>, k: nat, i: nat)
    requires i < |Peel(nodes, edges, Done(nodes, edges, k))|
    ensures Peel(nodes, edges, Done(nodes, edges, k))[i] == Sorted(Frontier(nodes, edges, Done(nodes, edges, k + i)))
    decreases i
  {
    hide Sorted, Frontier;
    if i > 0 { PeelLayers(nodes, edges, k + 1, i - 1); }
  }

  lemma CoverFront(f: set<string>, rest: seq<seq<string>>)
    ensures Covered([Sorted(f)] + rest) == f + Covered(rest)
  {
    hide Sorted;
    assert ([Sorted(f)] + rest)[1..] == rest;
    assert Elements(Sorted(f) + Flatten(rest)) == Elements(Sorted(f)) + Elements(Flatten(rest));
  }

  lemma CoverNothing()
    ensures Covered([]) == {}
  {
  }

  lemma FrontierShrinks(nodes: set<string>, edges: seq<Edge>, d: set<string>)
    requires Frontier(nodes, edges, d) != {}
    ensures nodes - (d + Frontier(nodes, edges, d)) < nodes - d
  {
    var x :| x in Frontier(nodes, edges, d);
    assert x in nodes - d;
  }

  lemma {:induction false} PeelExhausts(nodes: set<string>, edges: seq<Edge>, k: nat)
    ensures var layers := Peel(nodes, edges, Done(nodes, edges, k));
            && Frontier(nodes, edges, Done(nodes, edges, k + |layers|)) == {}
            && Done(nodes, edges, k + |layers|) == Done(nodes, edges, k) + Covered(layers)
    decreases nodes - Done(nodes, edges, k)
  {
    hide Sorted, Frontier, Covered;
    var d := Done(nodes, edges, k);
    var f := Frontier(nodes, edges, d);
    if f != {} {
      FrontierShrinks(nodes, edges, d);
      PeelExhausts(nodes, edges, k + 1);
      var rest := Peel(nodes, edges, d + f);
      assert Peel(nodes, edges, d) == [Sorted(f)] + rest;
      CoverFront(f, rest);
      assert d + (f + Covered(rest)) == (d + f) + Covered(rest);
    } else {
      CoverNothing();
    }
  }

  /** Layer `i` of the result is the set of nodes at depth `i`. */
  lemma LayerAt(nodes: set<string>, edges: seq<Edge>, i: nat, n: string)
    requires i < |Peel(nodes, edges, {})|
    ensures n in Peel(nodes, edges, {})[i] <==> AtDepth(nodes, edges, n, i)
  {
    hide Sorted, Frontier, Peel;
    PeelLayers(nodes, edges, 0, i);
    var f := Frontier(nodes, edges, Done(nodes, edges, i));
    assert n in Sorted(f) <==> n in Elements(Sorted(f));
  }

  // --------------------------------------------------------------- depth

  lemma {:induction false} DoneGrows(nodes: set<string>, edges: seq<Edge>, j: nat, k: nat)
    requires j <= k
    ensures Done(nodes, edges, j) <= Done(nodes, edges, k)
    decreases k
  {
    if j < k { DoneGrows(nodes, edges, j, k - 1); }
  }

  lemma {:induction false} DoneAtSomeDepth(nodes: set<string>, edges: seq<Edge>, n: string, k: nat) returns (i: nat)
    requires n in Done(nodes, edges, k)
    ensures i < k && AtDepth(nodes, edges, n, i)
    decreases k
  {
    if n in Done(nodes, edges, k - 1) {
      i := DoneAtSomeDepth(nodes, edges, n, k - 1);
    } else {
      i := k - 1;
    }
  }

  /** A node lies in at most one layer. */
  lemma DepthUnique(nodes: set<string>, edges: seq<Edge>, n: string, i: nat, j: nat)
    requires AtDepth(nodes, edges, n, i) && AtDepth(nodes, edges, n, j)
    ensures i == j
  {
    if i < j { DoneGrows(nodes, edges, i + 1, j); }
    if j < i { DoneGrows(nodes, edges, j + 1, i); }
  }

  /** A node above layer 0 is held there by a source in the layer just below. */
  lemma HeldBack(nodes: set<string>, edges: seq<Edge>, n: string, i: nat) returns (s: string)
    requires i > 0 && AtDepth(nodes, edges, n, i)
    ensures Edge(s, n) in edges && s != START && AtDepth(nodes, edges, s, i - 1)
  {
    assert !SourcesDone(edges, Done(nodes, edges, i - 1), n);
    var e :| e in edges && e.target == n && e.source != START && e.source !in Done(nodes, edges, i - 1);
    s := e.source;
  }

  lemma PathStep(nodes: set<string>, edges: seq<Edge>, p: seq<string>, n: string)
    requires IsPath(nodes, edges, p) && n in nodes && Link(edges, p[|p| - 1], n)
    ensures IsPath(nodes, edges, p + [n])
    ensures Elements(p + [n]) == Elements(p) + {n}
  {
    var q := p + [n];
    forall i | 0 <= i < |q| - 1 ensures Hop(edges, q, i) {
      assert i < |p| - 1 ==> Hop(edges, p, i);
    }
  }

  lemma PathSlice(nodes: set<string>, edges: seq<Edge>, p: seq<string>, i: nat, j: nat)
    requires IsPath(nodes, edges, p) && i < j <= |p|
    ensures IsPath(nodes, edges, p[i..j])
  {
    var q := p[i..j];
    forall k | 0 <= k < |q| - 1 ensures Hop(edges, q, k) {
      assert Hop(edges, p, i + k);
    }
  }

  lemma {:induction false} PathOfDepth(nodes: set<string>, edges: seq<Edge>, n: string, i: nat) returns (p: seq<string>)
    requires END !in nodes && AtDepth(nodes, edges, n, i)
    ensures IsPath(nodes, edges, p) && p[|p| - 1] == n && |p| == i + 1
    decreases i
  {
    if i == 0 {
      p := [n];
    } else {
      var s := HeldBack(nodes, edges, n, i);
      var q := PathOfDepth(nodes, edges, s, i - 1);
      PathStep(nodes, edges, q, n);
      p := q + [n];
    }
  }

  lemma DepthSource(nodes: set<string>, edges: seq<Edge>, s: string, n: string, i: nat)
    requires AtDepth(nodes, edges, n, i) && Link(edges, s, n)
    ensures s in Done(nodes, edges, i)
  {
  }

  /** Every node-to-node edge goes from a lower layer to a higher one. */
  lemma EdgesGoUp(nodes: set<string>, edges: seq<Edge>, s: string, i: nat, n: string, j: nat)
    requires InLayer(Peel(nodes, edges, {}), i, s) && InLayer(Peel(nodes, edges, {}), j, n) && Link(edges, s, n)
    ensures i < j
  {
    hide Peel, Frontier;
    LayerAt(nodes, edges, i, s);
    LayerAt(nodes, edges, j, n);
    DepthSource(nodes, edges, s, n, j);
    var d := DoneAtSomeDepth(nodes, edges, s, j);
    DepthUnique(nodes, edges, s, i, d);
  }

  /** The layers of a successful layering split the nodes: each node lies in exactly one. */
  lemma LayersPartition(nodes: set<string>, edges: seq<Edge>, n: string)
    requires Covered(Peel(nodes, edges, {})) == nodes
    ensures n in nodes <==> exists i :: InLayer(Peel(nodes, edges, {}), i, n)
    ensures forall i, j :: InLayer(Peel(nodes, edges, {}), i, n) && InLayer(Peel(nodes, edges, {}), j, n) ==> i == j
  {
    hide Peel;
    var layers := Peel(nodes, edges, {});
    FlattenContains(layers, n);
    if n in nodes {
      var i :| 0 <= i < |layers| && n in layers[i];
      assert InLayer(layers, i, n);
    }
    forall i, j | InLayer(layers, i, n) && InLayer(layers, j, n) ensures i == j {
      LayerAt(nodes, edges, i, n);
      LayerAt(nodes, edges, j, n);
      DepthUnique(nodes, edges, n, i, j);
    }
  }

  /** Walking a path backwards descends at least one layer per edge. */
  lemma {:induction false} PathDescends(nodes: set<string>, edges: seq<Edge>, p: seq<string>, k: nat)
    requires IsPath(nodes, edges, p) && p[|p| - 1] in Done(nodes, edges, k)
    ensures |p| <= k && p[0] in Done(nodes, edges, k - (|p| - 1))
    decreases |p|
  {
    hide Frontier, AtDepth, Elements;
    var i := DoneAtSomeDepth(nodes, edges, p[|p| - 1], k);
    if |p| == 1 {
    } else {
      assert Hop(edges, p, |p| - 2);
      DepthSource(nodes, edges, p[|p| - 2], p[|p| - 1], i);
      DoneGrows(nodes, edges, i, k - 1);
      PathSlice(nodes, edges, p, 0, |p| - 1);
      PathDescends(nodes, edges, p[..|p| - 1], k - 1);
    }
  }

  /** A node's layer is its longest-path depth. */
  lemma LayerIsDepth(nodes: set<string>, edges: seq<Edge>, i: nat, n: string)
    requires END !in nodes && InLayer(Peel(nodes, edges, {}), i, n)
    ensures LongestDepth(nodes, edges, n, i)
  {
    LayerAt(nodes, edges, i, n);
    var p := PathOfDepth(nodes, edges, n, i);
    forall q | IsPath(nodes, edges, q) && q[|q| - 1] == n ensures |q| <= i + 1 {
      PathDescends(nodes, edges, q, i + 1);
    }
  }

  /** Any assignment of levels in which every node edge goes up. */
  ghost predicate GoesUp(nodes: set<string>, edges: seq<Edge>, level: string -> nat) {
    forall s, n | s in nodes && n in nodes && Link(edges, s, n) :: level(s) < level(n)
  }

  lemma {:induction false} PathClimbs(nodes: set<string>, edges: seq<Edge>, level: string -> nat, p: seq<string>)
    requires GoesUp(nodes, edges, level) && IsPath(nodes, edges, p)
    ensures |p| <= level(p[|p| - 1]) + 1
    decreases |p|
  {
    var n := |p| - 1;
    if n > 0 {
      PathSlice(nodes, edges, p, 0, n);
      assert p[0..n] == p[..n] && Hop(edges, p, n - 1);
      PathClimbs(nodes, edges, level, p[..n]);
      assert p[n - 1] in Elements(p) && p[n] in Elements(p);
    }
  }

  /** No layering whose edges go up is shallower: it puts no node below the layer found here. */
  lemma NoLayeringIsShallower(nodes: set<string>, edges: seq<Edge>, level: string -> nat, i: nat, n: string)
    requires END !in nodes && GoesUp(nodes, edges, level) && InLayer(Peel(nodes, edges, {}), i, n)
    ensures i <= level(n)
  {
    hide Peel, GoesUp;
    LayerIsDepth(nodes, edges, i, n);
    var p :| IsPath(nodes, edges, p) && p[|p| - 1] == n && |p| == i + 1;
    PathClimbs(nodes, edges, level, p);
  }

  // --------------------------------------------------------------- success exactly on acyclic graphs

  ghost predicate Waits(edges: seq<Edge>, stuck: set<string>, n: string) {
    exists s :: s in stuck && Link(edges, s, n)
  }

  ghost predicate Waiting(nodes: set<string>, edges: seq<Edge>, stuck: set<string>) {
    stuck <= nodes && forall n {:trigger Waits(edges, stuck, n)} | n in stuck :: Waits(edges, stuck, n)
  }

  lemma {:induction false} WalkBack(nodes: set<string>, edges: seq<Edge>, stuck: set<string>, n: string, k: nat)
    returns (p: seq<string>)
    requires Waiting(nodes, edges, stuck) && n in stuck
    ensures IsPath(nodes, edges, p) && |p| == k + 1 && Elements(p) <= stuck && p[|p| - 1] == n
    decreases k
  {
    if k == 0 {
      p := [n];
    } else {
      assert Waits(edges, stuck, n);
      var s :| s in stuck && Link(edges, s, n);
      var q := WalkBack(nodes, edges, stuck, s, k - 1);
      PathStep(nodes, edges, q, n);
      p := q + [n];
    }
  }

  /** Finitely many nodes that all wait for one another contain a cycle. */
  lemma WaitingHasCycle(nodes: set<string>, edges: seq<Edge>, stuck: set<string>)
    requires Waiting(nodes, edges, stuck) && stuck != {}
    ensures !Acyclic(nodes, edges)
  {
    var n :| n in stuck;
    var p := WalkBack(nodes, edges, stuck, n, |stuck|);
    var i, j := Pigeonhole(p, stuck);
    var c := p[i..j + 1];
    PathSlice(nodes, edges, p, i, j + 1);
    assert c[0] == p[i] && c[|c| - 1] == p[j];
    assert IsCycle(nodes, edges, c);
  }

  /** When the frontier runs dry, every remaining node waits for a remaining node. */
  lemma StuckWaits(nodes: set<string>, edges: seq<Edge>, done: set<string>)
    requires AllEndpoints(nodes, edges) && NodeNames(nodes)
    requires Frontier(nodes, edges, done) == {}
    ensures Waiting(nodes, edges, nodes - done)
  {
    forall n | n in nodes - done ensures Waits(edges, nodes - done, n) {
      assert n !in Frontier(nodes, edges, done);
      var e :| e in edges && e.target == n && e.source != START && e.source !in done;
      assert e.source in nodes - done && e == Edge(e.source, n);
      assert Link(edges, e.source, n);
    }
  }

  /** `topological_layers` succeeds if and only if the node graph has no cycle. */
  lemma LayeringSucceedsIffAcyclic(nodes: set<string>, edges: seq<Edge>)
    requires AllEndpoints(nodes, edges) && NodeNames(nodes)
    ensures Covered(Peel(nodes, edges, {})) == nodes <==> Acyclic(nodes, edges)
  {
    hide Sorted, Frontier, Peel, Waiting;
    var layers := Peel(nodes, edges, {});
    var k := |layers|;
    PeelExhausts(nodes, edges, 0);
    assert Covered(layers) == Done(nodes, edges, k);
    if Covered(layers) == nodes {
      forall p | IsCycle(nodes, edges, p) ensures false {
        assert p[0] in nodes;
        CycleNeverDone(nodes, edges, p, k);
      }
    } else {
      DoneAreNodes(nodes, edges, k);
      StuckWaits(nodes, edges, Covered(layers));
      WaitingHasCycle(nodes, edges, nodes - Covered(layers));
    }
  }

  lemma {:induction false} CycleNeverDone(nodes: set<string>, edges: seq<Edge>, p: seq<string>, k: nat)
    requires IsCycle(nodes, edges, p)
    ensures p[0] !in Done(nodes, edges, k)
    decreases k
  {
    if p[0] in Done(nodes, edges, k) {
      PathDescends(nodes, edges, p, k);
      CycleNeverDone(nodes, edges, p, k - (|p| - 1));
    }
  }

  lemma {:induction false} DoneAreNodes(nodes: set<string>, edges: seq<Edge>, k: nat)
    ensures Done(nodes, edges, k) <= nodes
  {
    if k > 0 { DoneAreNodes(nodes, edges, k - 1); }
  }
}
