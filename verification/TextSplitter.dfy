/** Overlapping chunks of a document, and the context made of documents (rag.rs). */
module TextSplitter {
  import opened Prelude
  import opened Numbers

  /** The largest size of a vector in bytes. */
  const ISIZE_MAX := 0x7FFF_FFFF_FFFF_FFFF

  datatype Json = Text(text: string) | Number(n: nat) | OtherJson(text: string)

  datatype Document = Document(id: string, content: string, metadata: map<string, Json>, score: Option<real>)

  datatype Splitter = Splitter(maxChars: nat, overlapChars: nat)

  datatype SplitError = ZeroMax | OverlapTooLarge

  predicate ValidSplitter(s: Splitter) {
    s.overlapChars < s.maxChars <= USIZE_MAX
  }

  function NewSplitter(maxChars: nat, overlapChars: nat): (r: Result<Splitter, SplitError>)
    ensures r.Ok? <==> overlapChars < maxChars
    ensures r.Ok? && maxChars <= USIZE_MAX ==> ValidSplitter(r.value)
  {
    if maxChars == 0 then Err(ZeroMax)
    else if overlapChars >= maxChars then Err(OverlapTooLarge)
    else Ok(Splitter(maxChars, overlapChars))
  }

  function Step(s: Splitter): (n: nat)
    requires ValidSplitter(s)
    ensures n > 0
  {
    s.maxChars - s.overlapChars
  }

  /** Number of chunks: one, or one more for each further step needed to reach the end. */
  function ChunkCount(s: Splitter, n: nat): nat
    requires ValidSplitter(s)
  {
    if n == 0 then 0 else if n <= s.maxChars then 1 else 1 + (n - s.maxChars + Step(s) - 1) / Step(s)
  }

  function Start(s: Splitter, k: nat): nat
    requires ValidSplitter(s)
  {
    k * Step(s)
  }

  function End(s: Splitter, n: nat, k: nat): nat
    requires ValidSplitter(s)
  {
    Min(Start(s, k) + s.maxChars, n)
  }

  // --------------------------------------------------------------- counting

  lemma StartStep(s: Splitter, k: nat)
    requires ValidSplitter(s)
    ensures Start(s, k + 1) == Start(s, k) + Step(s)
  {
  }

  /** The last chunk is the first whose window reaches the end. */
  lemma LastChunk(s: Splitter, n: nat, k: nat)
    requires ValidSplitter(s) && n > 0
    ensures k + 1 >= ChunkCount(s, n) <==> Start(s, k) + s.maxChars >= n
  {
    if n > s.maxChars {
      var step := Step(s);
      var need := n - s.maxChars;
      var q := (need + step - 1) / step;
      DivisionBounds(need + step - 1, step);
      assert q * step <= need + step - 1 < q * step + step;
      if k >= q {
        MultiplyAscends(q, k, step);
      } else {
        MultiplyAscends(k + 1, q, step);
        assert (k + 1) * step == k * step + step;
      }
    }
  }

  lemma DivisionBounds(a: nat, b: nat)
    requires b > 0
    ensures a / b * b <= a < a / b * b + b
  {
  }

  lemma MultiplyAscends(a: nat, b: nat, c: nat)
    requires a <= b
    ensures a * c <= b * c
  {
  }

  lemma StartsInside(s: Splitter, n: nat, k: nat)
    requires ValidSplitter(s) && k < ChunkCount(s, n)
    ensures Start(s, k) < n && (k > 0 ==> Start(s, k) + s.overlapChars < n)
  {
    if k > 0 {
      LastChunk(s, n, k - 1);
      StartStep(s, k - 1);
    }
  }

  /** The text of chunk `k`. */
  function Piece(s: Splitter, text: string, k: nat): (p: string)
    requires ValidSplitter(s) && k < ChunkCount(s, |text|)
    ensures |p| <= s.maxChars
  {
    StartsInside(s, |text|, k);
    text[Start(s, k)..End(s, |text|, k)]
  }

  /** Chunk `k` of a document: its text, its number, and where it came from. */
  function ChunkOf(s: Splitter, d: Document, k: nat): Document
    requires ValidSplitter(s) && k < ChunkCount(s, |d.content|)
  {
    Document(d.id + ":" + Decimal(k), Piece(s, d.content, k),
             d.metadata["source_document_id" := Text(d.id)]["chunk_index" := Number(k)], d.score)
  }

  // --------------------------------------------------------------- the loop

  /**
   * `split`. A Rust vector of characters takes at most `ISIZE_MAX` bytes, four for each, and then the sum of `start`
   * and `max_chars` does not wrap around.
   */
  method Split(s: Splitter, d: Document) returns (chunks: seq<Document>)
    requires ValidSplitter(s) && 4 * |d.content| <= ISIZE_MAX
    ensures |chunks| == ChunkCount(s, |d.content|)
    ensures forall k | 0 <= k < |chunks| :: chunks[k] == ChunkOf(s, d, k)
  {
    hide Start, Decimal, ChunkCount;
    var n := |d.content|;
    chunks := [];
    if n == 0 {
      NoChunks(s);
      return;
    }
    var start := 0;
    StartsAtZero(s);
    AtLeastOne(s, n);
    while start < n
      invariant start == Start(s, |chunks|) && start <= USIZE_MAX
      invariant |chunks| < ChunkCount(s, n) && (|chunks| > 0 ==> s.maxChars < n)
      invariant forall k | 0 <= k < |chunks| :: chunks[k] == ChunkOf(s, d, k)
      decreases n - start
    {
      var k := |chunks|;
      assert start + s.maxChars <= USIZE_MAX;
      var end := Min(start + s.maxChars, n);
      var metadata := d.metadata["source_document_id" := Text(d.id)];
      metadata := metadata["chunk_index" := Number(k)];
      chunks := chunks + [Document(d.id + ":" + Decimal(k), d.content[start..end], metadata, d.score)];
      LastChunk(s, n, k);
      if end == n {
        return;
      }
      StartStep(s, k);
      start := Min(start + Step(s), USIZE_MAX);
    }
    StartsInside(s, n, |chunks|);
    assert false;
  }

  lemma NoChunks(s: Splitter)
    requires ValidSplitter(s)
    ensures ChunkCount(s, 0) == 0
  {
  }

  lemma AtLeastOne(s: Splitter, n: nat)
    requires ValidSplitter(s) && n > 0
    ensures ChunkCount(s, n) > 0
  {
  }

  lemma StartsAtZero(s: Splitter)
    requires ValidSplitter(s)
    ensures Start(s, 0) == 0
  {
  }

  // --------------------------------------------------------------- the law of the chunks

  /** Neighbours share exactly the overlap: the end of one is the beginning of the next. */
  lemma NeighboursOverlap(s: Splitter, text: string, k: nat)
    requires ValidSplitter(s) && k + 1 < ChunkCount(s, |text|)
    ensures var a, b := Piece(s, text, k), Piece(s, text, k + 1);
            |a| == s.maxChars && |b| > s.overlapChars && a[Step(s)..] == b[..s.overlapChars]
  {
    hide ChunkCount;
    StartsInside(s, |text|, k + 1);
    StartsInside(s, |text|, k);
    StartStep(s, k);
    hide Start;
    var from := Start(s, k);
    assert text[from..from + s.maxChars][Step(s)..] == text[from + Step(s)..from + s.maxChars];
  }

  /** The first chunk, then what each later one adds to the overlap. */
  function Rebuilt(s: Splitter, text: string, k: nat): string
    requires ValidSplitter(s) && k < ChunkCount(s, |text|)
  {
    if k == 0 then Piece(s, text, 0)
    else
      StartsInside(s, |text|, k);
      Rebuilt(s, text, k - 1) + Piece(s, text, k)[s.overlapChars..]
  }

  lemma {:induction false} RebuiltSoFar(s: Splitter, text: string, k: nat)
    requires ValidSplitter(s) && k < ChunkCount(s, |text|)
    ensures Rebuilt(s, text, k) == text[..End(s, |text|, k)]
  {
    if k == 0 {
      StartsAtZero(s);
    } else {
      RebuiltSoFar(s, text, k - 1);
      StartsInside(s, |text|, k);
      hide ChunkCount;
      StartStep(s, k - 1);
      hide Start;
      var n, from := |text|, Start(s, k);
      assert End(s, n, k - 1) == from + s.overlapChars;
      assert Piece(s, text, k)[s.overlapChars..] == text[from + s.overlapChars..End(s, n, k)];
    }
  }

  /** Nothing is lost: the chunks without their overlaps are the text. */
  lemma SplittingIsLossless(s: Splitter, text: string)
    requires ValidSplitter(s) && text != ""
    ensures ChunkCount(s, |text|) > 0 && Rebuilt(s, text, ChunkCount(s, |text|) - 1) == text
  {
    AtLeastOne(s, |text|);
    var last := ChunkCount(s, |text|) - 1;
    RebuiltSoFar(s, text, last);
    LastChunk(s, |text|, last);
    hide Rebuilt, ChunkCount, Start;
    assert text[..|text|] == text;
  }

  datatype Window = Window(from: int, to: int)

  /** Windows that begin at 0, end at `n`, are no longer than a chunk, and overlap their neighbours enough. */
  ghost predicate Covers(s: Splitter, n: nat, windows: seq<Window>) {
    && |windows| > 0 && windows[0].from == 0 && windows[|windows| - 1].to == n
    && (forall i | 0 <= i < |windows| :: windows[i].to - windows[i].from <= s.maxChars)
    && (forall i | 0 < i < |windows| :: windows[i].from <= windows[i - 1].to - s.overlapChars)
  }

  lemma {:induction false} Reach(s: Splitter, n: nat, windows: seq<Window>, k: nat)
    requires ValidSplitter(s) && Covers(s, n, windows) && k < |windows|
    ensures windows[k].to <= Start(s, k) + s.maxChars
    decreases k
  {
    if k == 0 {
      StartsAtZero(s);
    } else {
      Reach(s, n, windows, k - 1);
      StartStep(s, k - 1);
    }
  }

  /** No cover with chunks of this size and overlap uses fewer of them. */
  lemma SplittingIsMinimal(s: Splitter, n: nat, windows: seq<Window>)
    requires ValidSplitter(s) && n > 0 && Covers(s, n, windows)
    ensures ChunkCount(s, n) <= |windows|
  {
    hide ChunkCount, Start;
    Reach(s, n, windows, |windows| - 1);
    LastChunk(s, n, |windows| - 1);
  }

  // --------------------------------------------------------------- rendering documents

  function Section(d: Document): string {
    "[document:" + d.id + "]\n" + d.content + "\n\n"
  }

  function Joined(documents: seq<Document>): string {
    if documents == [] then "" else Section(documents[0]) + Joined(documents[1..])
  }

  lemma {:induction false} JoinedSplit(documents: seq<Document>, k: nat)
    requires k <= |documents|
    ensures Joined(documents) == Joined(documents[..k]) + Joined(documents[k..])
  {
    if k > 0 {
      JoinedSplit(documents[1..], k - 1);
      assert documents[..k][0] == documents[0] && documents[..k][1..] == documents[1..][..k - 1];
      assert documents[1..][k - 1..] == documents[k..];
    } else {
      assert documents[..0] == [] && documents[0..] == documents;
    }
  }

  lemma JoinedStep(documents: seq<Document>, k: nat)
    requires k < |documents|
    ensures Joined(documents[..k + 1]) == Joined(documents[..k]) + Section(documents[k])
  {
    hide Section;
    JoinedSplit(documents[..k + 1], k);
    assert documents[..k + 1][..k] == documents[..k] && documents[..k + 1][k..] == [documents[k]];
    assert Joined([documents[k]]) == Section(documents[k]) + Joined([]);
  }

  /** `render_context`: the joined sections, cut at the limit. */
  method RenderContext(documents: seq<Document>, maxChars: nat) returns (output: string)
    ensures output == Joined(documents)[..Min(maxChars, |Joined(documents)|)]
  {
    hide Section, Joined;
    output := "";
    NothingJoined(documents);
    for k := 0 to |documents|
      invariant output == Joined(documents[..k])[..Min(maxChars, |Joined(documents[..k])|)]
    {
      JoinedStep(documents, k);
      JoinedSplit(documents, k);
      var section := Section(documents[k]);
      var remaining := if maxChars > |output| then maxChars - |output| else 0;
      if remaining == 0 {
        return;
      }
      output := output + section[..Min(remaining, |section|)];
    }
    assert documents[..|documents|] == documents;
  }

  lemma NothingJoined(documents: seq<Document>)
    ensures Joined(documents[..0]) == ""
  {
  }
}
