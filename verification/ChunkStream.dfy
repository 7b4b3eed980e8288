/** Bounded chunk pipelines (compose.rs, `stream_chunks`, `execute_node_stream`). */
module ChunkStream {
  import opened Prelude
  import opened Workflow

  /** A node's chunk stream for one input; an `Err` chunk ends it. */
  type Item = Result<Value, AiError>
  type ChunkNode = Value -> seq<Item>

  /** A lazily pulled pipeline: `once(input)` followed by mapped and flattened stages. */
  datatype Pipe =
    | Source(pending: Option<Item>)
    | Stage(up: Pipe, node: ChunkNode, inner: seq<Item>)

  /** What one pull does: the item, the pipe left behind, the shared counter, and the chunks yielded by all stages. */
  datatype Pulled = Pulled(item: Option<Item>, pipe: Pipe, count: nat, emitted: nat)

  // --------------------------------------------------------------- reference: flat map

  function Values(items: seq<Item>): seq<Value> {
    if items == [] then []
    else (if items[0].Ok? then [items[0].value] else []) + Values(items[1..])
  }

  /** The values a node makes of several inputs, one after another. */
  function FlatMap(node: ChunkNode, inputs: seq<Value>): seq<Value> {
    if inputs == [] then [] else Values(node(inputs[0])) + FlatMap(node, inputs[1..])
  }

  /** Everything the pipe would deliver without a bound. */
  function Outs(p: Pipe): seq<Value> {
    match p
    case Source(None) => []
    case Source(Some(r)) => if r.Ok? then [r.value] else []
    case Stage(up, node, inner) => Values(inner) + FlatMap(node, Outs(up))
  }

  function Chunks(node: ChunkNode, inputs: seq<Value>): nat {
    if inputs == [] then 0 else |node(inputs[0])| + Chunks(node, inputs[1..])
  }

  /** Chunks that all stages together still have to yield. */
  function Work(p: Pipe): nat {
    match p
    case Source(_) => 0
    case Stage(up, node, inner) => |inner| + Work(up) + Chunks(node, Outs(up))
  }

  /** A measure of everything left to pull. */
  function Size(p: Pipe): nat {
    match p
    case Source(pending) => if pending.Some? then 1 else 0
    case Stage(up, node, inner) => |inner| + Size(up) + Chunks(node, Outs(up))
  }

  predicate IsSuffix(a: seq<Value>, b: seq<Value>) {
    |a| <= |b| && a == b[|b| - |a|..]
  }

  lemma {:induction false} ChunksSuffix(node: ChunkNode, a: seq<Value>, b: seq<Value>)
    requires IsSuffix(a, b)
    ensures Chunks(node, a) <= Chunks(node, b)
    ensures IsSuffix(FlatMap(node, a), FlatMap(node, b))
  {
    if |a| < |b| {
      assert a == b[1..][|b[1..]| - |a|..];
      ChunksSuffix(node, a, b[1..]);
      SuffixPrepend(FlatMap(node, a), FlatMap(node, b[1..]), Values(node(b[0])));
    } else {
      assert a == b;
    }
  }

  lemma SuffixPrepend(a: seq<Value>, b: seq<Value>, front: seq<Value>)
    requires IsSuffix(a, b)
    ensures IsSuffix(a, front + b)
  {
    assert (front + b)[|front + b| - |a|..] == b[|b| - |a|..];
  }

  // --------------------------------------------------------------- pulling

  /** What a pull leaves behind is strictly less, and delivers a tail of what was to come. */
  predicate Shrinks(p: Pipe, r: Pulled) {
    && IsSuffix(Outs(r.pipe), Outs(p))
    && (r.item.Some? ==> Size(r.pipe) < Size(p))
    && (r.item.Some? && r.item.value.Ok? ==> IsSuffix([r.item.value.value] + Outs(r.pipe), Outs(p)))
  }

  /** One pull at stage `p` with the shared counter at `count`. */
  function Pull(p: Pipe, count: nat, max: nat): (r: Pulled)
    ensures Shrinks(p, r)
    decreases Size(p), p
  {
    hide Outs, Size, IsSuffix, Shrinks;
    match p
    case Source(pending) =>
      SourceShrinks(pending, count);
      Pulled(pending, Source(None), count, 0)
    case Stage(up, node, inner) =>
      if inner != [] then
        var r :=
          if inner[0].Err? then Pulled(Some(inner[0]), Stage(up, node, []), count, 0)
          else if count >= max then Pulled(Some(Err(WorkflowStreamLimit(max))), Stage(up, node, []), count + 1, 0)
          else Pulled(Some(inner[0]), Stage(up, node, inner[1..]), count + 1, 1);
        InnerShrinks(p, r);
        r
      else
        OutsOfStage(up, node, inner);
        var u := Pull(up, count, max);
        PullUp(p, u);
        if u.item.None? || u.item.value.Err? then
          PassShrinks(p, u);
          Pulled(u.item, Stage(u.pipe, node, []), u.count, u.emitted)
        else
          var q := Stage(u.pipe, node, node(u.item.value.value));
          var r := Pull(q, u.count, max);
          ShrinksTrans(p, q, r, u.emitted + r.emitted);
          r.(emitted := u.emitted + r.emitted)
  }

  lemma SourceShrinks(pending: Option<Item>, count: nat)
    ensures Shrinks(Source(pending), Pulled(pending, Source(None), count, 0))
  {
  }

  lemma PassShrinks(p: Pipe, u: Pulled)
    requires p.Stage? && p.inner == [] && Shrinks(p.up, u) && (u.item.Some? ==> u.item.value.Err?)
    ensures Shrinks(p, Pulled(u.item, Stage(u.pipe, p.node, []), u.count, u.emitted))
  {
    hide Outs, Size, IsSuffix;
    PullUp(p, u);
  }

  lemma InnerShrinks(p: Pipe, r: Pulled)
    requires p.Stage? && p.inner != []
    requires || (r.pipe == Stage(p.up, p.node, []) && r.item.Some? && r.item.value.Err?)
             || (r.pipe == Stage(p.up, p.node, p.inner[1..]) && r.item == Some(p.inner[0]))
    ensures Shrinks(p, r)
  {
    PullInner(p);
    hide FlatMap, Values, Chunks;
    SuffixSelf(Outs(p));
  }

  lemma ShrinksTrans(p: Pipe, q: Pipe, r: Pulled, emitted: nat)
    requires Shrinks(q, r) && IsSuffix(Outs(q), Outs(p)) && Size(q) < Size(p)
    ensures Shrinks(p, r.(emitted := emitted))
  {
    hide Outs, Size, IsSuffix;
    SuffixTrans(Outs(r.pipe), Outs(q), Outs(p));
  }

  lemma OutsOfStage(up: Pipe, node: ChunkNode, inner: seq<Item>)
    ensures Outs(Stage(up, node, inner)) == Values(inner) + FlatMap(node, Outs(up))
    ensures Size(up) <= Size(Stage(up, node, inner))
  {
    hide FlatMap, Values, Chunks;
  }

  lemma PullInner(p: Pipe)
    requires p.Stage? && p.inner != []
    ensures IsSuffix(Outs(Stage(p.up, p.node, [])), Outs(p))
    ensures IsSuffix(Outs(Stage(p.up, p.node, p.inner[1..])), Outs(p))
    ensures p.inner[0].Ok? ==> [p.inner[0].value] + Outs(Stage(p.up, p.node, p.inner[1..])) == Outs(p)
  {
    hide Outs, FlatMap, Size, IsSuffix;
    OutsOfStage(p.up, p.node, []);
    OutsOfStage(p.up, p.node, p.inner);
    OutsOfStage(p.up, p.node, p.inner[1..]);
    var rest := FlatMap(p.node, Outs(p.up));
    var tail := Values(p.inner[1..]) + rest;
    var head := if p.inner[0].Ok? then [p.inner[0].value] else [];
    assert Values(p.inner) == head + Values(p.inner[1..]);
    assert Outs(p) == Values(p.inner) + rest == head + tail;
    assert Outs(Stage(p.up, p.node, [])) == [] + rest == rest;
    SuffixSelf(rest);
    SuffixSelf(tail);
    SuffixPrepend(rest, rest, Values(p.inner));
    SuffixPrepend(tail, tail, head);
  }

  lemma SuffixSelf(a: seq<Value>)
    ensures IsSuffix(a, a)
  {
  }

  lemma PullUp(p: Pipe, u: Pulled)
    requires p.Stage? && p.inner == [] && Shrinks(p.up, u)
    ensures IsSuffix(Outs(Stage(u.pipe, p.node, [])), Outs(p))
    ensures u.item.Some? ==> Size(Stage(u.pipe, p.node, [])) < Size(p)
    ensures u.item.Some? && u.item.value.Ok? ==>
              && Size(Stage(u.pipe, p.node, p.node(u.item.value.value))) < Size(p)
              && IsSuffix(Outs(Stage(u.pipe, p.node, p.node(u.item.value.value))), Outs(p))
  {
    ChunksSuffix(p.node, Outs(u.pipe), Outs(p.up));
    assert forall s: seq<Value> :: Values([]) + s == s;
    if u.item.Some? && u.item.value.Ok? {
      var v := u.item.value.value;
      ChunksSuffix(p.node, [v] + Outs(u.pipe), Outs(p.up));
      assert ([v] + Outs(u.pipe))[1..] == Outs(u.pipe);
    }
  }

  lemma SuffixTrans(a: seq<Value>, b: seq<Value>, c: seq<Value>)
    requires IsSuffix(a, b) && IsSuffix(b, c)
    ensures IsSuffix(a, c)
    ensures forall v | IsSuffix([v] + a, b) :: IsSuffix([v] + a, c)
  {
    assert c[|c| - |b|..][|b| - |a|..] == c[|c| - |a|..];
    forall v | IsSuffix([v] + a, b) ensures IsSuffix([v] + a, c) {
      assert c[|c| - |b|..][|b| - |a| - 1..] == c[|c| - |a| - 1..];
    }
  }

  // --------------------------------------------------------------- collecting the stream

  datatype Drained = Drained(items: seq<Item>, count: nat, emitted: nat)

  /** Pulls until the stream ends. */
  function Drain(p: Pipe, count: nat, max: nat): Drained
    decreases Size(p)
  {
    var r := Pull(p, count, max);
    if r.item.None? then Drained([], r.count, r.emitted) else
      var rest := Drain(r.pipe, r.count, max);
      Drained([r.item.value] + rest.items, rest.count, r.emitted + rest.emitted)
  }

  /** The collecting loop of a consumer. */
  method Collect(pipe0: Pipe, max: nat) returns (items: seq<Item>, emitted: nat)
    ensures items == Drain(pipe0, 0, max).items && emitted == Drain(pipe0, 0, max).emitted
  {
    hide Pull, Outs, IsSuffix;
    var pipe, count := pipe0, 0;
    items, emitted := [], 0;
    var more := true;
    while more
      invariant more ==> items + Drain(pipe, count, max).items == Drain(pipe0, 0, max).items
      invariant more ==> emitted + Drain(pipe, count, max).emitted == Drain(pipe0, 0, max).emitted
      invariant !more ==> items == Drain(pipe0, 0, max).items && emitted == Drain(pipe0, 0, max).emitted
      decreases more, Size(pipe)
    {
      var r := Pull(pipe, count, max);
      pipe, count, emitted := r.pipe, r.count, emitted + r.emitted;
      if r.item.None? {
        more := false;
      } else {
        items := items + [r.item.value];
      }
    }
  }

  /** All stages together yield at most `max` chunks, failing nodes included. */
  lemma {:induction false} PullBound(p: Pipe, count: nat, max: nat)
    ensures var r := Pull(p, count, max);
            count <= r.count && r.emitted + Min(count, max) == Min(r.count, max)
    decreases Size(p), p
  {
    hide Outs, Size, Shrinks, FlatMap, Chunks;
    if p.Stage? { OutsOfStage(p.up, p.node, p.inner); }
    if p.Stage? && p.inner == [] {
      PullBound(p.up, count, max);
      var u := Pull(p.up, count, max);
      PullUp(p, u);
      if u.item.Some? && u.item.value.Ok? {
        PullBound(Stage(u.pipe, p.node, p.node(u.item.value.value)), u.count, max);
      }
    }
  }

  lemma {:induction false} DrainBound(p: Pipe, count: nat, max: nat)
    ensures Drain(p, count, max).emitted + Min(count, max) <= max
    decreases Size(p)
  {
    hide Pull;
    PullBound(p, count, max);
    var r := Pull(p, count, max);
    if r.item.Some? { DrainBound(r.pipe, r.count, max); }
  }

  // --------------------------------------------------------------- non-failing nodes

  ghost predicate AllOk(items: seq<Item>) {
    forall i | 0 <= i < |items| :: items[i].Ok?
  }

  ghost predicate Clean(p: Pipe) {
    match p
    case Source(pending) => pending.Some? ==> pending.value.Ok?
    case Stage(up, node, inner) => Clean(up) && AllOk(inner) && forall v :: AllOk(node(v))
  }

  /** The books of one pull: outputs delivered, work done, and the counter. */
  ghost predicate Balanced(p: Pipe, count: nat, max: nat, r: Pulled) {
    && Clean(r.pipe) && (r.pipe.Stage? <==> p.Stage?)
    && match r.item
       case None => Outs(p) == [] && r.count == count + Work(p) && (r.count <= max || r.count == count)
       case Some(Ok(v)) =>
         && Outs(p) == [v] + Outs(r.pipe)
         && r.count + Work(r.pipe) == count + Work(p)
         && (p.Stage? ==> r.count <= max)
       case Some(Err(e)) => p.Stage? && e == WorkflowStreamLimit(max) && r.count > max && count + Work(p) > max
  }

  lemma BalancedInner(p: Pipe, count: nat, max: nat)
    requires Clean(p) && p.Stage? && p.inner != []
    ensures Balanced(p, count, max, Pull(p, count, max))
  {
    PullInner(p);
  }

  /** The stage above ends or fails: so does this one. */
  lemma BalancedPass(p: Pipe, count: nat, max: nat, u: Pulled)
    requires Clean(p) && p.Stage? && p.inner == []
    requires Balanced(p.up, count, max, u) && (u.item.Some? ==> u.item.value.Err?)
    ensures Balanced(p, count, max, Pulled(u.item, Stage(u.pipe, p.node, []), u.count, u.emitted))
  {
  }

  /** The stage above delivers `v`: this stage goes on with the chunks made of `v`. */
  lemma BalancedInto(p: Pipe, count: nat, max: nat, u: Pulled, v: Value, r: Pulled)
    requires Clean(p) && p.Stage? && p.inner == []
    requires Balanced(p.up, count, max, u) && u.item == Some(Ok(v))
    requires Balanced(Stage(u.pipe, p.node, p.node(v)), u.count, max, r)
    ensures Balanced(p, count, max, r)
  {
    var q := Stage(u.pipe, p.node, p.node(v));
    assert ([v] + Outs(u.pipe))[1..] == Outs(u.pipe);
    assert Outs(p) == Outs(q) && u.count + Work(q) == count + Work(p);
  }

  lemma BalancedSource(p: Pipe, count: nat, max: nat)
    requires Clean(p) && p.Source?
    ensures Balanced(p, count, max, Pull(p, count, max))
  {
  }

  /** One pull at a stage whose current chunks are used up. */
  lemma PullUnfold(p: Pipe, count: nat, max: nat)
    requires p.Stage? && p.inner == []
    ensures var u := Pull(p.up, count, max);
            Pull(p, count, max) ==
              if u.item.None? || u.item.value.Err? then Pulled(u.item, Stage(u.pipe, p.node, []), u.count, u.emitted)
              else
                var r := Pull(Stage(u.pipe, p.node, p.node(u.item.value.value)), u.count, max);
                r.(emitted := u.emitted + r.emitted)
  {
    hide Outs, Size, Shrinks, IsSuffix;
  }

  lemma {:induction false} PullBalances(p: Pipe, count: nat, max: nat)
    requires Clean(p)
    ensures Balanced(p, count, max, Pull(p, count, max))
    decreases Size(p), p
  {
    hide Pull, Balanced, Outs, Size, Shrinks, IsSuffix, Work;
    if p.Source? {
      BalancedSource(p, count, max);
    } else if p.inner != [] {
      BalancedInner(p, count, max);
    } else {
      PullUnfold(p, count, max);
      OutsOfStage(p.up, p.node, p.inner);
      PullBalances(p.up, count, max);
      var u := Pull(p.up, count, max);
      PullUp(p, u);
      if u.item.Some? && u.item.value.Ok? {
        var v := u.item.value.value;
        var q := Stage(u.pipe, p.node, p.node(v));
        BalancedClean(p.up, count, max, u);
        assert AllOk(p.node(v));
        PullBalances(q, u.count, max);
        var r := Pull(q, u.count, max);
        BalancedInto(p, count, max, u, v, r);
        BalancedEmitted(p, count, max, r, u.emitted + r.emitted);
      } else {
        BalancedPass(p, count, max, u);
      }
    }
  }

  lemma BalancedClean(p: Pipe, count: nat, max: nat, r: Pulled)
    requires Balanced(p, count, max, r)
    ensures Clean(r.pipe)
  {
  }

  lemma BalancedEmitted(p: Pipe, count: nat, max: nat, r: Pulled, n: nat)
    requires Balanced(p, count, max, r)
    ensures Balanced(p, count, max, r.(emitted := n))
  {
  }

  /** Once the counter has reached the bound no further chunk comes out. */
  lemma {:induction false} PullExhausted(p: Pipe, count: nat, max: nat)
    requires p.Stage? && count >= max
    ensures var r := Pull(p, count, max);
            r.count >= max && r.pipe.Stage? && (r.item.Some? ==> r.item.value.Err?)
    decreases Size(p), p
  {
    hide Outs, Size, Shrinks, FlatMap, Chunks;
    OutsOfStage(p.up, p.node, p.inner);
    PullBound(p, count, max);
    if p.inner == [] {
      var u := Pull(p.up, count, max);
      PullBound(p.up, count, max);
      PullUp(p, u);
      if u.item.Some? && u.item.value.Ok? {
        PullExhausted(Stage(u.pipe, p.node, p.node(u.item.value.value)), u.count, max);
      }
    }
  }

  lemma {:induction false} DrainExhausted(p: Pipe, count: nat, max: nat)
    requires p.Stage? && count >= max
    ensures forall i | 0 <= i < |Drain(p, count, max).items| :: Drain(p, count, max).items[i].Err?
    decreases Size(p)
  {
    hide Pull;
    PullExhausted(p, count, max);
    var r := Pull(p, count, max);
    if r.item.Some? { DrainExhausted(r.pipe, r.count, max); }
  }

  function Oks(values: seq<Value>): seq<Item> {
    seq(|values|, i requires 0 <= i < |values| => Ok(values[i]))
  }

  /** If the work fits the bound, the stream is exactly the flat map. */
  lemma {:induction false} DrainExact(p: Pipe, count: nat, max: nat)
    requires Clean(p) && count + Work(p) <= max
    ensures Drain(p, count, max).items == Oks(Outs(p))
    decreases Size(p)
  {
    hide Pull, Outs, Work, Clean, IsSuffix;
    PullBalances(p, count, max);
    var r := Pull(p, count, max);
    if r.item.Some? {
      DrainExact(r.pipe, r.count, max);
      assert Oks([r.item.value.value] + Outs(r.pipe)) == [r.item.value] + Oks(Outs(r.pipe));
    }
  }

  lemma OksPrepend(v: Value, tail: seq<Value>, j: nat)
    requires j <= |tail|
    ensures Oks(([v] + tail)[..j + 1]) == [Ok(v)] + Oks(tail[..j])
  {
    assert ([v] + tail)[..j + 1] == [v] + tail[..j];
  }

  /** If it does not, a prefix of the flat map comes out and then only errors, the limit error first. */
  lemma {:induction false} DrainCut(p: Pipe, count: nat, max: nat) returns (k: nat)
    requires Clean(p) && p.Stage? && count <= max < count + Work(p)
    ensures var items := Drain(p, count, max).items;
            && k < |items| && k <= |Outs(p)| && items[..k] == Oks(Outs(p)[..k])
            && items[k] == Err(WorkflowStreamLimit(max))
            && forall i | k <= i < |items| :: items[i].Err?
    decreases Size(p)
  {
    hide Pull, Outs, Work, Clean, IsSuffix;
    PullBalances(p, count, max);
    var r := Pull(p, count, max);
    if r.item.value.Err? {
      k := 0;
      DrainExhausted(r.pipe, r.count, max);
    } else {
      var j := DrainCut(r.pipe, r.count, max);
      k := j + 1;
      OksPrepend(r.item.value.value, Outs(r.pipe), j);
      var items := Drain(r.pipe, r.count, max).items;
      assert ([r.item.value] + items)[..k] == [r.item.value] + items[..j];
    }
  }
}
