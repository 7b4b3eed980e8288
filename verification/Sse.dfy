/** Cutting a server-sent event stream into events (openai_compatible.rs). */
module Sse {
  import opened Prelude

  const LF: Byte := 10
  const CR: Byte := 13
  const LFLF: seq<Byte> := [LF, LF]
  const CRLFCRLF: seq<Byte> := [CR, LF, CR, LF]

  /** An event body and the blank line that ended it. */
  datatype Event = Event(body: Bytes, delimiter: Bytes)

  datatype Framed = Framed(events: seq<Event>, left: Bytes)

  predicate OccursAt(b: Bytes, needle: Bytes, i: int) {
    0 <= i && i + |needle| <= |b| && b[i..i + |needle|] == needle
  }

  /** Length of the delimiter that starts at `i`, or 0. */
  function DelimiterAt(b: Bytes, i: int): (n: nat)
    ensures n > 0 ==> 0 <= i && i + n <= |b|
  {
    if OccursAt(b, LFLF, i) then 2 else if OccursAt(b, CRLFCRLF, i) then 4 else 0
  }

  /** The earliest start of a delimiter. */
  function FirstDelimiter(b: Bytes, from: nat): (r: Option<nat>)
    ensures r.Some? ==>
              from <= r.value && DelimiterAt(b, r.value) > 0 && forall i | from <= i < r.value :: DelimiterAt(b, i) == 0
    ensures r.None? ==> forall i | from <= i :: DelimiterAt(b, i) == 0
    decreases |b| - from
  {
    if DelimiterAt(b, from) > 0 then Some(from) else if from >= |b| then None else FirstDelimiter(b, from + 1)
  }

  /** All complete events at the front of the bytes, and what is left over. */
  function Frame(b: Bytes): Framed
    decreases |b|
  {
    match FirstDelimiter(b, 0)
    case None => Framed([], b)
    case Some(i) =>
      var n := DelimiterAt(b, i);
      var rest := Frame(b[i + n..]);
      Framed([Event(b[..i], b[i..i + n])] + rest.events, rest.left)
  }

  // --------------------------------------------------------------- the buffer

  /** `windows(n).position(...)`. */
  method Position(b: Bytes, needle: Bytes) returns (r: Option<nat>)
    requires |needle| > 0
    ensures r.Some? ==> OccursAt(b, needle, r.value) && forall i | 0 <= i < r.value :: !OccursAt(b, needle, i)
    ensures r.None? ==> forall i :: !OccursAt(b, needle, i)
  {
    var k := 0;
    while k + |needle| <= |b|
      invariant forall i | 0 <= i < k :: !OccursAt(b, needle, i)
      decreases |b| - k
    {
      if b[k..k + |needle|] == needle {
        return Some(k);
      }
      k := k + 1;
    }
    return None;
  }

  class EventBuffer {
    var bytes: Bytes

    constructor ()
      ensures bytes == []
    {
      bytes := [];
    }

    method Extend(chunk: Bytes)
      modifies this
      ensures bytes == old(bytes) + chunk
    {
      bytes := bytes + chunk;
    }

    /** `take_sse_event`: removes the first complete event and its delimiter. */
    method Take() returns (event: Option<Bytes>)
      modifies this
      ensures event.None? <==> Frame(old(bytes)).events == []
      ensures event.None? ==> bytes == old(bytes)
      ensures event.Some? ==>
                Frame(old(bytes)).events == [Event(event.value, Frame(old(bytes)).events[0].delimiter)]
                    + Frame(bytes).events
                && Frame(old(bytes)).left == Frame(bytes).left && |bytes| < |old(bytes)|
    {
      var lf := Position(bytes, LFLF);
      var crlf := Position(bytes, CRLFCRLF);
      var index, length;
      match (lf, crlf) {
        case (Some(left), Some(right)) =>
          if left <= right {
            index, length := left, 2;
          } else {
            index, length := right, 4;
          }
        case (Some(left), None) => index, length := left, 2;
        case (None, Some(right)) => index, length := right, 4;
        case (None, None) =>
          NoDelimiter(bytes);
          return None;
      }
      FirstIs(bytes, index, length);
      event := Some(bytes[..index]);
      bytes := bytes[index + length..];
    }
  }

  lemma NoDelimiter(b: Bytes)
    requires forall i :: !OccursAt(b, LFLF, i)
    requires forall i :: !OccursAt(b, CRLFCRLF, i)
    ensures Frame(b) == Framed([], b)
  {
  }

  lemma FirstIs(b: Bytes, index: nat, length: nat)
    requires if length == 2 then OccursAt(b, LFLF, index) else length == 4 && OccursAt(b, CRLFCRLF, index)
    requires forall i | 0 <= i < index :: !OccursAt(b, LFLF, i) && !OccursAt(b, CRLFCRLF, i)
    ensures FirstDelimiter(b, 0) == Some(index) && DelimiterAt(b, index) == length
  {
    hide OccursAt;
    Letters(b, LFLF, index);
    Letters(b, CRLFCRLF, index);
    assert length == 2 ==> b[index] == LF;
    assert length == 4 ==> b[index] == CR;
    var r := FirstDelimiter(b, 0);
    assert DelimiterAt(b, index) > 0;
    assert r.Some? && r.value <= index;
    assert DelimiterAt(b, r.value) > 0;
  }

  // --------------------------------------------------------------- more bytes do not move the first delimiter

  lemma OccursInFront(b: Bytes, c: Bytes, needle: Bytes, i: int)
    ensures OccursAt(b, needle, i) ==> OccursAt(b + c, needle, i)
    ensures i + |needle| <= |b| && OccursAt(b + c, needle, i) ==> OccursAt(b, needle, i)
  {
    if 0 <= i && i + |needle| <= |b| {
      assert (b + c)[i..i + |needle|] == b[i..i + |needle|];
    }
  }

  /** A blank line cannot start inside the first three bytes of a carriage-return delimiter. */
  lemma NoOverlap(s: Bytes, i: nat, first: nat)
    requires i < first && OccursAt(s, CRLFCRLF, i) && OccursAt(s, LFLF, first)
    ensures first >= i + 3
  {
    hide OccursAt;
    Letters(s, CRLFCRLF, i);
    Letters(s, LFLF, first);
    assert s[i + 2] == CR;
    assert s[first] == LF && s[first + 1] == LF;
  }

  /** So no delimiter starts earlier and ends later than the first complete one. */
  lemma NoEarlier(b: Bytes, c: Bytes, first: nat, i: nat)
    requires i < first && DelimiterAt(b, first) > 0 && DelimiterAt(b, i) == 0
    ensures DelimiterAt(b + c, i) == 0
  {
    OccursInFront(b, c, LFLF, i);
    OccursInFront(b, c, CRLFCRLF, i);
    OccursInFront(b, c, LFLF, first);
    OccursInFront(b, c, CRLFCRLF, first);
    hide OccursAt;
    InRange(b, LFLF, first);
    InRange(b, CRLFCRLF, first);
    if OccursAt(b + c, CRLFCRLF, i) && OccursAt(b, LFLF, first) {
      NoOverlap(b + c, i, first);
    }
  }

  lemma InRange(b: Bytes, needle: Bytes, i: int)
    ensures OccursAt(b, needle, i) ==> i + |needle| <= |b|
  {
  }

  lemma Letters(b: Bytes, needle: Bytes, i: int)
    ensures OccursAt(b, needle, i) ==> 0 <= i && i + |needle| <= |b| && forall k | i <= k < i + |needle| ::
            b[k] == needle[k - i]
  {
    if OccursAt(b, needle, i) {
      forall k | i <= k < i + |needle| ensures b[k] == needle[k - i] {
        assert b[k] == b[i..i + |needle|][k - i];
      }
    }
  }

  lemma FirstIsStable(b: Bytes, c: Bytes)
    requires FirstDelimiter(b, 0).Some?
    ensures FirstDelimiter(b + c, 0) == FirstDelimiter(b, 0)
    ensures DelimiterAt(b + c, FirstDelimiter(b, 0).value) == DelimiterAt(b, FirstDelimiter(b, 0).value)
  {
    var k := FirstDelimiter(b, 0).value;
    forall i | 0 <= i < k ensures DelimiterAt(b + c, i) == 0 {
      NoEarlier(b, c, k, i);
    }
    OccursInFront(b, c, LFLF, k);
    OccursInFront(b, c, CRLFCRLF, k);
    assert DelimiterAt(b + c, k) == DelimiterAt(b, k);
    var r := FirstDelimiter(b + c, 0);
    assert r.Some? && r.value <= k && DelimiterAt(b + c, r.value) > 0;
  }

  lemma FrameStep(b: Bytes, i: nat, n: nat)
    requires FirstDelimiter(b, 0) == Some(i) && n == DelimiterAt(b, i)
    ensures i + n <= |b| && n > 0
    ensures Frame(b) == Framed([Event(b[..i], b[i..i + n])] + Frame(b[i + n..]).events, Frame(b[i + n..]).left)
  {
    hide DelimiterAt, FirstDelimiter;
  }

  lemma FrameNone(b: Bytes)
    requires FirstDelimiter(b, 0).None?
    ensures Frame(b) == Framed([], b)
  {
  }

  /** Framing can stop anywhere and go on with what was left. */
  lemma {:induction false} FrameInTwo(b: Bytes, c: Bytes)
    ensures Frame(b + c).events == Frame(b).events + Frame(Frame(b).left + c).events
    ensures Frame(b + c).left == Frame(Frame(b).left + c).left
    decreases |b|
  {
    hide DelimiterAt, FirstDelimiter, Frame;
    if FirstDelimiter(b, 0).None? {
      FrameNone(b);
    } else {
      var i := FirstDelimiter(b, 0).value;
      var n := DelimiterAt(b, i);
      FirstIsStable(b, c);
      FrameStep(b, i, n);
      FrameStep(b + c, i, n);
      FrameInTwo(b[i + n..], c);
      assert (b + c)[i + n..] == b[i + n..] + c;
      assert (b + c)[..i] == b[..i] && (b + c)[i..i + n] == b[i..i + n];
    }
  }

  // --------------------------------------------------------------- any chunking

  /** Feeding chunks one by one, framing after each. */
  function Feed(left: Bytes, chunks: seq<Bytes>): Framed
    decreases |chunks|
  {
    if chunks == [] then Framed([], left) else
      var now := Frame(left + chunks[0]);
      var later := Feed(now.left, chunks[1..]);
      Framed(now.events + later.events, later.left)
  }

  lemma {:induction false} FrameOfLeft(b: Bytes)
    ensures Frame(Frame(b).left) == Framed([], Frame(b).left)
    decreases |b|
  {
    if FirstDelimiter(b, 0).Some? {
      var i := FirstDelimiter(b, 0).value;
      FrameOfLeft(b[i + DelimiterAt(b, i)..]);
    }
  }

  lemma {:induction false} FeedIsFrame(left: Bytes, chunks: seq<Bytes>)
    requires Frame(left) == Framed([], left)
    ensures Feed(left, chunks) == Frame(left + Flatten(chunks))
    decreases |chunks|
  {
    hide Frame;
    if chunks == [] {
      assert left + [] == left;
    } else {
      FrameOfLeft(left + chunks[0]);
      FeedIsFrame(Frame(left + chunks[0]).left, chunks[1..]);
      FrameInTwo(left + chunks[0], Flatten(chunks[1..]));
      assert left + (chunks[0] + Flatten(chunks[1..])) == left + chunks[0] + Flatten(chunks[1..]);
    }
  }

  /** Two ways to split the same bytes give the same events and the same leftover. */
  lemma ChunkingDoesNotMatter(a: seq<Bytes>, b: seq<Bytes>)
    requires Flatten(a) == Flatten(b)
    ensures Feed([], a) == Feed([], b) == Frame(Flatten(a))
  {
    hide Frame;
    NoBytes();
    FeedIsFrame([], a);
    FeedIsFrame([], b);
    assert [] + Flatten(a) == Flatten(a);
  }

  lemma NoBytes()
    ensures Frame([]) == Framed([], [])
  {
  }

  // --------------------------------------------------------------- nothing is lost

  function Unframe(events: seq<Event>): Bytes {
    if events == [] then [] else events[0].body + events[0].delimiter + Unframe(events[1..])
  }

  ghost predicate DelimiterFree(b: Bytes) {
    forall i :: DelimiterAt(b, i) == 0
  }

  /** An event ends at its own blank line: no delimiter starts earlier. */
  ghost predicate Tight(e: Event) {
    && e.delimiter in {LFLF, CRLFCRLF}
    && forall i | 0 <= i < |e.body| :: DelimiterAt(e.body + e.delimiter, i) == 0
  }

  /** Events, delimiters and leftover are the input again, cut at its first delimiters. */
  lemma {:induction false} NothingLost(b: Bytes)
    ensures Unframe(Frame(b).events) + Frame(b).left == b
    ensures DelimiterFree(Frame(b).left)
    ensures forall k | 0 <= k < |Frame(b).events| :: Tight(Frame(b).events[k])
    decreases |b|
  {
    hide Frame, DelimiterAt, FirstDelimiter, Tight;
    if FirstDelimiter(b, 0).None? {
      FrameNone(b);
    } else {
      var i := FirstDelimiter(b, 0).value;
      var n := DelimiterAt(b, i);
      FrameStep(b, i, n);
      NothingLost(b[i + n..]);
      FirstEventTight(b, i, n);
      var rest := Frame(b[i + n..]);
      UnframeCons(Event(b[..i], b[i..i + n]), rest.events);
      assert b == b[..i] + b[i..i + n] + (Unframe(rest.events) + rest.left);
    }
  }

  lemma UnframeCons(e: Event, rest: seq<Event>)
    ensures Unframe([e] + rest) == e.body + e.delimiter + Unframe(rest)
  {
    assert ([e] + rest)[1..] == rest;
  }

  lemma FirstEventTight(b: Bytes, i: nat, n: nat)
    requires FirstDelimiter(b, 0) == Some(i) && n == DelimiterAt(b, i)
    ensures Tight(Event(b[..i], b[i..i + n]))
  {
    var e := b[..i] + b[i..i + n];
    assert e + b[i + n..] == b;
    forall k | 0 <= k < i ensures DelimiterAt(e, k) == 0 {
      OccursInFront(e, b[i + n..], LFLF, k);
      OccursInFront(e, b[i + n..], CRLFCRLF, k);
      assert DelimiterAt(b, k) == 0;
    }
  }

  // --------------------------------------------------------------- the receiving loop

  function Bodies(events: seq<Event>): seq<Bytes> {
    seq(|events|, i requires 0 <= i < |events| => events[i].body)
  }

  /** The events handled before the one that ends the stream. */
  function Until(bodies: seq<Bytes>, stop: Bytes -> bool): seq<Bytes> {
    if bodies == [] || stop(bodies[0]) then [] else [bodies[0]] + Until(bodies[1..], stop)
  }

  predicate Stops(bodies: seq<Bytes>, stop: Bytes -> bool) {
    exists i | 0 <= i < |bodies| :: stop(bodies[i])
  }

  lemma {:induction false} UntilAppend(a: seq<Bytes>, b: seq<Bytes>, stop: Bytes -> bool)
    ensures Stops(a, stop) ==> Until(a + b, stop) == Until(a, stop)
    ensures !Stops(a, stop) ==> Until(a, stop) == a && Until(a + b, stop) == a + Until(b, stop)
  {
    if a == [] {
      assert a + b == b;
    } else {
      assert (a + b)[1..] == a[1..] + b;
      UntilAppend(a[1..], b, stop);
      if Stops(a, stop) && !stop(a[0]) {
        var i :| 0 <= i < |a| && stop(a[i]);
        assert stop(a[1..][i - 1]);
      }
      if Stops(a[1..], stop) {
        var i :| 0 <= i < |a[1..]| && stop(a[1..][i]);
        assert stop(a[i + 1]);
      }
      if !stop(a[0]) {
        assert a == [a[0]] + a[1..];
        assert a + Until(b, stop) == [a[0]] + (a[1..] + Until(b, stop));
      }
    }
  }

  /** The inner loop: takes complete events until there is none or one of them ends the stream. */
  method Drain(buffer: EventBuffer, stop: Bytes -> bool) returns (handled: seq<Bytes>, stopped: bool)
    modifies buffer
    ensures var now := old(Frame(buffer.bytes));
            && handled == Until(Bodies(now.events), stop)
            && (stopped <==> Stops(Bodies(now.events), stop))
            && (!stopped ==> buffer.bytes == now.left)
  {
    hide Frame, Until, Bodies, Stops;
    handled := [];
    ghost var now := Frame(buffer.bytes);
    ghost var all := Bodies(now.events);
    assert [] + Until(all, stop) == Until(all, stop);
    while true
      invariant Frame(buffer.bytes).left == now.left
      invariant Until(all, stop) == handled + Until(Bodies(Frame(buffer.bytes).events), stop)
      invariant Stops(all, stop) <==> Stops(Bodies(Frame(buffer.bytes).events), stop)
      decreases |buffer.bytes|
    {
      ghost var before := Frame(buffer.bytes).events;
      var event := buffer.Take();
      if event.None? {
        LeftIsAll(buffer.bytes);
        NoBodies(stop);
        return handled, false;
      }
      ghost var after := Bodies(Frame(buffer.bytes).events);
      BodiesCons(event.value, before[0].delimiter, Frame(buffer.bytes).events);
      UntilCons(event.value, after, stop);
      if stop(event.value) {
        return handled, true;
      }
      handled := handled + [event.value];
    }
  }

  /** `stop` holds of the events that end the loop: the done mark, or one that is refused. */
  method Receive(chunks: seq<Bytes>, stop: Bytes -> bool) returns (handled: seq<Bytes>)
    ensures handled == Until(Bodies(Frame(Flatten(chunks)).events), stop)
  {
    hide Frame, Until, Bodies, Stops;
    var buffer := new EventBuffer();
    handled := [];
    NoBytes();
    ChunkingDoesNotMatter(chunks, chunks);
    ghost var all := Bodies(Frame(Flatten(chunks)).events);
    assert [] + Until(all, stop) == Until(all, stop);
    for k := 0 to |chunks|
      invariant Until(all, stop) == handled + Until(Bodies(Feed(buffer.bytes, chunks[k..]).events), stop)
    {
      FeedStep(buffer.bytes, chunks, k);
      buffer.Extend(chunks[k]);
      ghost var now := Frame(buffer.bytes);
      ghost var later := Bodies(Feed(now.left, chunks[k + 1..]).events);
      UntilAppend(Bodies(now.events), later, stop);
      var taken, stopped := Drain(buffer, stop);
      handled := handled + taken;
      if stopped {
        return;
      }
    }
    assert chunks[|chunks|..] == [];
    NoBodies(stop);
  }

  lemma FeedStep(left: Bytes, chunks: seq<Bytes>, k: nat)
    requires k < |chunks|
    ensures var now := Frame(left + chunks[k]);
            Bodies(Feed(left, chunks[k..]).events) == Bodies(now.events)
                + Bodies(Feed(now.left, chunks[k + 1..]).events)
  {
    hide Frame;
    assert chunks[k..][0] == chunks[k] && chunks[k..][1..] == chunks[k + 1..];
  }

  lemma LeftIsAll(b: Bytes)
    requires Frame(b).events == []
    ensures Frame(b).left == b
  {
  }

  lemma NoBodies(stop: Bytes -> bool)
    ensures Bodies([]) == [] && Until([], stop) == [] && !Stops([], stop)
  {
  }

  lemma UntilCons(body: Bytes, rest: seq<Bytes>, stop: Bytes -> bool)
    ensures Until([body] + rest, stop) == if stop(body) then [] else [body] + Until(rest, stop)
    ensures Stops([body] + rest, stop) <==> stop(body) || Stops(rest, stop)
  {
    var all := [body] + rest;
    assert all[0] == body && all[1..] == rest;
    if Stops(rest, stop) {
      var i :| 0 <= i < |rest| && stop(rest[i]);
      assert stop(all[i + 1]);
    }
  }

  lemma BodiesCons(body: Bytes, delimiter: Bytes, rest: seq<Event>)
    ensures Bodies([Event(body, delimiter)] + rest) == [body] + Bodies(rest)
  {
  }
}
