/** How much of a node's stream can matter: streams longer than the bound, endless ones included (compose.rs). */
module LongStreams {
  import opened Prelude
  import opened Workflow
  import opened ChunkStream
  import opened Pipeline

  /** The same stream, or two streams with at least `n` chunks that begin with the same `n`. */
  ghost predicate AlikeTo(n: nat, a: seq<Item>, b: seq<Item>) {
    a == b || (n <= |a| && n <= |b| && a[..n] == b[..n])
  }

  ghost predicate NodesAlike(n: nat, f: ChunkNode, g: ChunkNode) {
    forall v :: AlikeTo(n, f(v), g(v))
  }

  ghost predicate StagesAlike(n: nat, a: seq<ChunkNode>, b: seq<ChunkNode>) {
    |a| == |b| && forall i | 0 <= i < |a| :: NodesAlike(n, a[i], b[i])
  }

  /** Chunks of a stage that can still be looked at: those left under the bound, and the one that meets it. */
  function InSight(count: nat, max: nat): nat {
    if count < max then max + 1 - count else 1
  }

  /** Two pipes that no sequence of pulls can tell apart. */
  ghost predicate PipesAlike(p: Pipe, q: Pipe, count: nat, max: nat) {
    match (p, q)
    case (Source(a), Source(b)) => a == b
    case (Stage(pu, pn, pi), Stage(qu, qn, qi)) =>
      PipesAlike(pu, qu, count, max) && NodesAlike(max + 1, pn, qn) && AlikeTo(InSight(count, max), pi, qi)
    case _ => false
  }

  lemma AlikeLess(n: nat, m: nat, a: seq<Item>, b: seq<Item>)
    requires AlikeTo(n, a, b) && m <= n
    ensures AlikeTo(m, a, b)
  {
    if a != b {
      assert a[..n][..m] == a[..m] && b[..n][..m] == b[..m];
    }
  }

  /** A higher counter sees less. */
  lemma {:induction false} PipesAlikeLater(p: Pipe, q: Pipe, count: nat, later: nat, max: nat)
    requires PipesAlike(p, q, count, max) && count <= later
    ensures PipesAlike(p, q, later, max)
    decreases p
  {
    if p.Stage? {
      PipesAlikeLater(p.up, q.up, count, later, max);
      AlikeLess(InSight(count, max), InSight(later, max), p.inner, q.inner);
    }
  }

  /** What one pull shows of two pipes: the same item and counters, and pipes that are alike again. */
  ghost predicate SamePull(r: Pulled, s: Pulled, max: nat) {
    r.item == s.item && r.count == s.count && r.emitted == s.emitted && PipesAlike(r.pipe, s.pipe, r.count, max)
  }

  lemma PullInnerAlike(p: Pipe, q: Pipe, count: nat, max: nat)
    requires p.Stage? && PipesAlike(p, q, count, max) && p.inner != []
    ensures q.inner != [] && SamePull(Pull(p, count, max), Pull(q, count, max), max)
  {
    hide Outs, Size, Shrinks, NodesAlike;
    var n := InSight(count, max);
    if p.inner != q.inner {
      assert p.inner[..n][0] == p.inner[0] && q.inner[..n][0] == q.inner[0];
      if count < max {
        assert p.inner[1..][..n - 1] == p.inner[..n][1..] && q.inner[1..][..n - 1] == q.inner[..n][1..];
      }
    }
    if count < max {
      assert AlikeTo(n - 1, p.inner[1..], q.inner[1..]);
    }
    PipesAlikeLater(p.up, q.up, count, count + 1, max);
  }

  lemma {:induction false} PullAlike(p: Pipe, q: Pipe, count: nat, max: nat)
    requires PipesAlike(p, q, count, max)
    ensures SamePull(Pull(p, count, max), Pull(q, count, max), max)
    decreases Size(p), p
  {
    hide Outs, Size, Shrinks, NodesAlike, Pull, AlikeTo;
    if p.Source? {
      PullSource(p, count, max);
      PullSource(q, count, max);
    } else if p.inner != [] {
      PullInnerAlike(p, q, count, max);
    } else {
      NothingLeft(InSight(count, max), q.inner);
      OutsOfStage(p.up, p.node, p.inner);
      PullAlike(p.up, q.up, count, max);
      var u, w := Pull(p.up, count, max), Pull(q.up, count, max);
      PullUnfold(p, count, max);
      PullUnfold(q, count, max);
      PullUp(p, u);
      if u.item.Some? && u.item.value.Ok? {
        var v := u.item.value.value;
        NextAlike(p.node, q.node, v, u.count, max);
        PullAlike(Stage(u.pipe, p.node, p.node(v)), Stage(w.pipe, q.node, q.node(v)), u.count, max);
      } else {
        NothingAlike(InSight(u.count, max));
      }
    }
  }

  lemma PullSource(p: Pipe, count: nat, max: nat)
    requires p.Source?
    ensures Pull(p, count, max) == Pulled(p.pending, Source(None), count, 0)
  {
  }

  lemma NothingLeft(n: nat, b: seq<Item>)
    requires n > 0 && AlikeTo(n, [], b)
    ensures b == []
  {
  }

  lemma NothingAlike(n: nat)
    ensures AlikeTo(n, [], [])
  {
  }

  lemma NextAlike(f: ChunkNode, g: ChunkNode, v: Value, count: nat, max: nat)
    requires NodesAlike(max + 1, f, g)
    ensures AlikeTo(InSight(count, max), f(v), g(v))
  {
    AlikeLess(max + 1, InSight(count, max), f(v), g(v));
  }

  lemma {:induction false} DrainAlike(p: Pipe, q: Pipe, count: nat, max: nat)
    requires PipesAlike(p, q, count, max)
    ensures Drain(p, count, max) == Drain(q, count, max)
    decreases Size(p)
  {
    hide Pull, Outs, Size, PipesAlike;
    PullAlike(p, q, count, max);
    var r := Pull(p, count, max);
    if r.item.Some? {
      DrainAlike(r.pipe, Pull(q, count, max).pipe, r.count, max);
    }
  }

  lemma {:induction false} StackedAlike(a: seq<ChunkNode>, b: seq<ChunkNode>, k: nat, first: Item, max: nat)
    requires StagesAlike(max + 1, a, b) && k <= |a|
    ensures PipesAlike(Stacked(a, k, first), Stacked(b, k, first), 0, max)
  {
    hide NodesAlike;
    if k > 0 {
      StackedAlike(a, b, k - 1, first, max);
      assert NodesAlike(max + 1, a[k - 1], b[k - 1]);
    }
  }

  /**
   * Only the first `max + 1` chunks a node makes of an input can matter. So a stream that never ends behaves as any
   * finite beginning of it that is longer than the bound.
   */
  lemma OnlyTheBeginningMatters(a: seq<ChunkNode>, b: seq<ChunkNode>, first: Item, max: nat)
    requires StagesAlike(max + 1, a, b)
    ensures Drain(Stacked(a, |a|, first), 0, max) == Drain(Stacked(b, |b|, first), 0, max)
  {
    hide Drain, PipesAlike;
    StackedAlike(a, b, |a|, first, max);
    DrainAlike(Stacked(a, |a|, first), Stacked(b, |b|, first), 0, max);
  }
}
