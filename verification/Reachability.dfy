/** Breadth-first reachability from START (compose.rs, `validate_reachability`). */
module Reachability {
  import opened Prelude
  import opened Names
  import opened Workflow
  import opened Layers

  ghost predicate Stride(edges: seq<Edge>, p: seq<string>, i: int) {
    0 <= i < |p| - 1 && Edge(p[i], p[i + 1]) in edges
  }

  /** A walk from START to `n` along edges. */
  ghost predicate IsWalk(edges: seq<Edge>, p: seq<string>, n: string) {
    && |p| > 0 && p[0] == START && p[|p| - 1] == n
    && forall i | 0 <= i < |p| - 1 :: Stride(edges, p, i)
  }

  ghost predicate Reachable(edges: seq<Edge>, n: string) {
    exists p :: IsWalk(edges, p, n)
  }

  ghost predicate AllReachable(nodes: set<string>, edges: seq<Edge>) {
    (forall n | n in nodes :: Reachable(edges, n)) && Reachable(edges, END)
  }

  lemma StartReachable(edges: seq<Edge>)
    ensures Reachable(edges, START)
  {
    assert IsWalk(edges, [START], START);
  }

  lemma ReachStep(edges: seq<Edge>, s: string, t: string)
    requires Reachable(edges, s) && Edge(s, t) in edges
    ensures Reachable(edges, t)
  {
    var p :| IsWalk(edges, p, s);
    var q := p + [t];
    forall i | 0 <= i < |q| - 1 ensures Stride(edges, q, i) {
      assert i < |p| - 1 ==> Stride(edges, p, i);
    }
    assert IsWalk(edges, q, t);
  }

  ghost predicate Closed(edges: seq<Edge>, visited: set<string>) {
    START in visited && forall e | e in edges && e.source in visited :: e.target in visited
  }

  lemma {:induction false} WalkStaysInside(edges: seq<Edge>, visited: set<string>, p: seq<string>, n: string)
    requires Closed(edges, visited) && IsWalk(edges, p, n)
    ensures n in visited
    decreases |p|
  {
    if |p| > 1 {
      var q := p[..|p| - 1];
      forall i | 0 <= i < |q| - 1 ensures Stride(edges, q, i) {
        assert Stride(edges, p, i);
      }
      WalkStaysInside(edges, visited, q, p[|p| - 2]);
      assert Stride(edges, p, |p| - 2);
    }
  }

  /** A closed set of reachable names is exactly the reachable set. */
  lemma ClosedIsReachable(edges: seq<Edge>, visited: set<string>, n: string)
    requires Closed(edges, visited) && forall v | v in visited :: Reachable(edges, v)
    ensures n in visited <==> Reachable(edges, n)
  {
    if Reachable(edges, n) {
      var p :| IsWalk(edges, p, n);
      WalkStaysInside(edges, visited, p, n);
    }
  }

  ghost predicate Outgoing(edges: seq<Edge>, k: nat, outgoing: map<string, seq<string>>)
    requires k <= |edges|
  {
    forall s, t :: t in Lookup(outgoing, s) <==> Edge(s, t) in edges[..k]
  }

  method ListOutgoing(edges: seq<Edge>) returns (outgoing: map<string, seq<string>>)
    ensures Outgoing(edges, |edges|, outgoing)
  {
    outgoing := map[];
    for k := 0 to |edges|
      invariant Outgoing(edges, k, outgoing)
    {
      assert edges[..k + 1] == edges[..k] + [edges[k]];
      outgoing := Pushed(outgoing, edges[k].source, edges[k].target);
    }
  }

  ghost function Universe(edges: seq<Edge>): set<string> {
    {START} + set e | e in edges :: e.target
  }

  /** The invariant of the search: everything seen is reachable, and nothing below it is forgotten. */
  ghost predicate Searching(edges: seq<Edge>, queue: seq<string>, visited: set<string>) {
    && visited <= Universe(edges)
    && (forall x | x in queue :: x in Universe(edges) && Reachable(edges, x))
    && (forall v | v in visited :: Reachable(edges, v))
    && (START in visited || START in queue)
    && (forall e | e in edges && e.source in visited :: e.target in visited || e.target in queue)
  }

  lemma Enqueue(edges: seq<Edge>, queue: seq<string>, visited: set<string>, next: seq<string>)
    requires Searching(edges, queue, visited) && |queue| > 0 && queue[0] !in visited
    requires forall t :: t in next <==> Edge(queue[0], t) in edges
    ensures Searching(edges, queue[1..] + next, visited + {queue[0]})
  {
    var name := queue[0];
    var q, v := queue[1..] + next, visited + {name};
    assert name in queue && queue == [name] + queue[1..];
    forall x | x in q ensures x in Universe(edges) && Reachable(edges, x) {
      if x in next { ReachStep(edges, name, x); }
    }
    forall e | e in edges && e.source in v ensures e.target in v || e.target in q {
      if e.source == name { assert e == Edge(name, e.target); }
    }
  }

  /** The visited set of the search is exactly the set of names reachable from START. */
  method Search(edges: seq<Edge>) returns (visited: set<string>)
    ensures forall n :: n in visited <==> Reachable(edges, n)
  {
    var outgoing := ListOutgoing(edges);
    assert edges[..|edges|] == edges;
    var queue := [START];
    visited := {};
    StartReachable(edges);
    while queue != []
      invariant Searching(edges, queue, visited)
      decreases Universe(edges) - visited, |queue|
    {
      var name := queue[0];
      assert name in queue && queue == [name] + queue[1..];
      if name in visited {
        queue := queue[1..];
      } else {
        Enqueue(edges, queue, visited, Lookup(outgoing, name));
        queue := queue[1..] + Lookup(outgoing, name);
        visited := visited + {name};
      }
    }
    forall n ensures n in visited <==> Reachable(edges, n) {
      ClosedIsReachable(edges, visited, n);
    }
  }

  /** The first name of `order` that START does not reach. */
  ghost predicate FirstUnreachable(edges: seq<Edge>, order: seq<string>, n: string) {
    exists i :: 0 <= i < |order| && order[i] == n && !Reachable(edges, n)
                && forall j | 0 <= j < i :: Reachable(edges, order[j])
  }

  method ValidateReachability(nodes: set<string>, edges: seq<Edge>) returns (r: Result<(), AiError>)
    ensures r.Ok? <==> AllReachable(nodes, edges)
    ensures r.Err? ==>
      || (exists n :: r.error == InvalidWorkflow(UnreachableNode(n)) && FirstUnreachable(edges, Sorted(nodes), n))
      || (r.error == InvalidWorkflow(UnreachableEnd) && forall n | n in nodes :: Reachable(edges, n))
  {
    hide Reachable, Sorted;
    var visited := Search(edges);
    var order := Sorted(nodes);
    assert forall n | n in nodes :: n in Elements(order);
    for i := 0 to |order|
      invariant forall j | 0 <= j < i :: Reachable(edges, order[j])
    {
      assert order[i] in Elements(order);
      if order[i] !in visited {
        return Err(InvalidWorkflow(UnreachableNode(order[i])));
      }
    }
    if END !in visited {
      return Err(InvalidWorkflow(UnreachableEnd));
    }
    return Ok(());
  }
}
