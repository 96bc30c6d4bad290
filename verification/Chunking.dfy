/** Splitting a text into overlapping chunks, and walking it page by page. Texts are sequences of Unicode
    scalar values. */
module Chunking {
  import opened Wrappers

  const MAX_CHUNK_CHARS: nat := 16_000
  const MAX_CHUNKS: nat := 32

  datatype Chunk = Chunk(index: nat, start: nat, end: nat, content: string)

  datatype Page = Page(chunks: seq<Chunk>, startChunk: nat, nextChunk: Option<nat>, totalChunks: nat)

  datatype Slice = Slice(content: string, start: nat, end: nat, totalChars: nat, nextStart: Option<nat>)

  datatype ParameterError = InvalidBounds

  function Min(a: nat, b: nat): nat {
    if a <= b then a else b
  }

  // ---------- What a chunking is ----------

  /** How many chunks a text of `n` characters takes. */
  function ChunkCount(n: nat, chunk: nat, overlap: nat): nat
    requires overlap < chunk
  {
    if n == 0 then 0
    else if n <= chunk then 1
    else 1 + (n - chunk + (chunk - overlap) - 1) / (chunk - overlap)
  }

  /** Chunk `i` starts `i` steps in and is as long as the text allows. */
  ghost predicate ChunkAt(text: string, chunk: nat, overlap: nat, c: Chunk, i: nat)
    requires overlap < chunk
  {
    && c.index == i && c.start == i * (chunk - overlap) && c.start < |text|
    && c.end == Min(c.start + chunk, |text|) && c.content == text[c.start..c.end]
  }

  ghost predicate Chunked(text: string, chunk: nat, overlap: nat, chunks: seq<Chunk>)
    requires overlap < chunk
  {
    && |chunks| == ChunkCount(|text|, chunk, overlap)
    && forall i :: 0 <= i < |chunks| ==> ChunkAt(text, chunk, overlap, chunks[i], i)
  }

  lemma NextStart(i: nat, step: nat)
    ensures (i + 1) * step == i * step + step
  {
  }

  lemma {:induction false} Monotone(a: nat, b: nat, step: nat)
    requires a <= b
    ensures a * step <= b * step
  {
    if a < b {
      Monotone(a, b - 1, step);
      NextStart(b - 1, step);
    }
  }

  lemma QuotientIs(x: nat, d: nat, q: nat)
    requires d > 0 && q * d <= x < (q + 1) * d
    ensures x / d == q
  {
    var p := x / d;
    assert p * d + x % d == x;
    NextStart(p, d);
    if p < q {
      Monotone(p + 1, q, d);
    } else if p > q {
      Monotone(q + 1, p, d);
    }
  }

  lemma DivStep(x: nat, d: nat)
    requires d > 0 && x >= d
    ensures x / d == (x - d) / d + 1
  {
    var p := (x - d) / d;
    assert p * d + (x - d) % d == x - d;
    NextStart(p, d);
    NextStart(p + 1, d);
    QuotientIs(x, d, p + 1);
  }

  /** The last chunk is the first one that reaches the end of the text. */
  lemma CountIs(n: nat, chunk: nat, overlap: nat, k: nat)
    requires overlap < chunk && n > 0 && k > 0
    requires (k - 1) * (chunk - overlap) + chunk >= n
    requires k > 1 ==> (k - 2) * (chunk - overlap) + chunk < n
    ensures ChunkCount(n, chunk, overlap) == k
  {
    var step := chunk - overlap;
    if k > 1 {
      var before := (k - 2) * step;
      NextStart(k - 2, step);
      NextStart(k - 1, step);
      QuotientIs(n - chunk + step - 1, step, k - 1);
    }
  }

  /** The loop of `fact_chunk_values` and `exact_chunk_fact`. */
  method ChunkText(text: string, chunk: nat, overlap: nat) returns (chunks: seq<Chunk>)
    requires overlap < chunk
    ensures Chunked(text, chunk, overlap, chunks)
  {
    var step := chunk - overlap;
    chunks := [];
    var start := 0;
    while start < |text|
      invariant start == |chunks| * step
      invariant forall i :: 0 <= i < |chunks| ==> ChunkAt(text, chunk, overlap, chunks[i], i)
      invariant chunks != [] ==> (|chunks| - 1) * step + chunk < |text| && start < |text|
    {
      var end := Min(start + chunk, |text|);
      chunks := chunks + [Chunk(|chunks|, start, end, text[start..end])];
      if end == |text| {
        CountIs(|text|, chunk, overlap, |chunks|);
        break;
      }
      assert (|chunks| - 1) * step + step == |chunks| * step;
      start := start + step;
    }
  }

  // ---------- What a chunking gives ----------

  /** Every chunk ends behind the one before it: it adds at least one new character, and the last one ends the text. */
  lemma ChunksAdvance(text: string, chunk: nat, overlap: nat, chunks: seq<Chunk>)
    requires overlap < chunk && Chunked(text, chunk, overlap, chunks)
    ensures text == "" <==> chunks == []
    ensures forall i :: 0 <= i < |chunks| - 1 ==> chunks[i + 1].start + overlap == chunks[i].end < chunks[i + 1].end
    ensures chunks != [] ==> chunks[0].start == 0 < chunks[0].end && chunks[|chunks| - 1].end == |text|
  {
    var step := chunk - overlap;
    if text != "" {
      var k := |chunks|;
      LastReaches(|text|, chunk, overlap);
      assert ChunkAt(text, chunk, overlap, chunks[k - 1], k - 1);
      assert ChunkAt(text, chunk, overlap, chunks[0], 0);
      forall i | 0 <= i < k - 1
        ensures chunks[i + 1].start + overlap == chunks[i].end < chunks[i + 1].end
      {
        assert ChunkAt(text, chunk, overlap, chunks[i], i) && ChunkAt(text, chunk, overlap, chunks[i + 1], i + 1);
        NextStart(i, step);
        EarlierStops(|text|, chunk, overlap, i);
      }
    }
  }

  lemma LastReaches(n: nat, chunk: nat, overlap: nat)
    requires overlap < chunk && n > 0
    ensures ChunkCount(n, chunk, overlap) > 0
    ensures (ChunkCount(n, chunk, overlap) - 1) * (chunk - overlap) + chunk >= n
  {
    var step := chunk - overlap;
    if n > chunk {
      var q, r := (n - chunk + step - 1) / step, (n - chunk + step - 1) % step;
      assert q * step + r == n - chunk + step - 1;
    }
  }

  lemma EarlierStops(n: nat, chunk: nat, overlap: nat, i: nat)
    requires overlap < chunk && i + 1 < ChunkCount(n, chunk, overlap)
    ensures i * (chunk - overlap) + chunk < n
  {
    var step := chunk - overlap;
    var q, r := (n - chunk + step - 1) / step, (n - chunk + step - 1) % step;
    assert q * step + r == n - chunk + step - 1;
    assert i <= q - 1;
    assert i * step <= (q - 1) * step == q * step - step by {
      Monotone(i, q - 1, step);
      NextStart(q - 1, step);
    }
  }

  /** The first `n` chunks, each after the first without its overlap. */
  function Joined(chunks: seq<Chunk>, overlap: nat, n: nat): string
    requires n <= |chunks|
  {
    if n == 0 then ""
    else if n == 1 then chunks[0].content
    else Joined(chunks, overlap, n - 1) + chunks[n - 1].content[Min(overlap, |chunks[n - 1].content|)..]
  }

  lemma {:induction false} JoinedIsPrefix(text: string, chunk: nat, overlap: nat, chunks: seq<Chunk>, n: nat)
    requires overlap < chunk && Chunked(text, chunk, overlap, chunks) && 0 < n <= |chunks|
    ensures chunks[n - 1].end <= |text| && Joined(chunks, overlap, n) == text[..chunks[n - 1].end]
  {
    ChunksAdvance(text, chunk, overlap, chunks);
    assert ChunkAt(text, chunk, overlap, chunks[n - 1], n - 1);
    if n > 1 {
      JoinedIsPrefix(text, chunk, overlap, chunks, n - 1);
      var i, c := n - 2, chunks[n - 1];
      assert chunks[i + 1].start + overlap == chunks[i].end < chunks[i + 1].end;
      PrefixGrows(text, c.start, c.end, overlap);
    }
  }

  /** A slice without its overlap continues the prefix that ends with the overlap. */
  lemma PrefixGrows(text: string, start: nat, end: nat, overlap: nat)
    requires start + overlap <= end <= |text|
    ensures text[..start + overlap] + text[start..end][overlap..] == text[..end]
  {
  }

  /** Dropping the overlaps rebuilds the text. */
  lemma ChunksRebuild(text: string, chunk: nat, overlap: nat, chunks: seq<Chunk>)
    requires overlap < chunk && Chunked(text, chunk, overlap, chunks)
    ensures Joined(chunks, overlap, |chunks|) == text
  {
    ChunksAdvance(text, chunk, overlap, chunks);
    if text != "" {
      JoinedIsPrefix(text, chunk, overlap, chunks, |chunks|);
      assert text[..|text|] == text;
    }
  }

  // ---------- The closed form ----------

  /** `total_chunks` as `exact_chunk_context` computes it. */
  function TotalChunks(n: nat, chunk: nat): nat
    requires chunk > 0
  {
    (n + (chunk - 1)) / chunk
  }

  /** Without overlap the loop makes exactly as many chunks as the closed form says. */
  lemma LoopMeetsClosedForm(n: nat, chunk: nat)
    requires chunk > 0
    ensures ChunkCount(n, chunk, 0) == TotalChunks(n, chunk)
  {
    if n == 0 {
      QuotientIs(chunk - 1, chunk, 0);
    } else if n <= chunk {
      QuotientIs(n + chunk - 1, chunk, 1);
    } else {
      DivStep(n + chunk - 1, chunk);
    }
  }

  function ContextChunk(text: string, chunk: nat, index: nat): Chunk
    requires chunk > 0 && index < TotalChunks(|text|, chunk)
  {
    StartsInside(|text|, chunk, index);
    var start := index * chunk;
    var end := Min(|text|, start + chunk);
    Chunk(index, start, end, text[start..end])
  }

  lemma StartsInside(n: nat, chunk: nat, index: nat)
    requires chunk > 0 && index < TotalChunks(n, chunk)
    ensures 0 <= index * chunk < n
  {
    var q, r := (n + chunk - 1) / chunk, (n + chunk - 1) % chunk;
    assert q * chunk + r == n + chunk - 1;
    Monotone(index, q - 1, chunk);
    NextStart(q - 1, chunk);
  }

  // ---------- Pages of chunks ----------

  predicate ValidPaging(chunk: nat, overlap: nat, maxChunks: nat) {
    0 < chunk <= MAX_CHUNK_CHARS && overlap < chunk && 0 < maxChunks <= MAX_CHUNKS
  }

  /** The window both chunk tools cut out of all chunks. */
  function PageOf(all: seq<Chunk>, startChunk: nat, maxChunks: nat): (page: Page)
    ensures page.startChunk == (if startChunk < |all| then startChunk else |all|) && page.totalChunks == |all|
    ensures page.startChunk + |page.chunks| <= |all| && |page.chunks| <= maxChunks
    ensures page.chunks == all[page.startChunk..page.startChunk + |page.chunks|]
    ensures if page.startChunk + |page.chunks| == |all| then page.nextChunk == None
            else |page.chunks| == maxChunks && page.nextChunk == Some(page.startChunk + maxChunks)
  {
    var start := Min(startChunk, |all|);
    var end := Min(|all|, start + maxChunks);
    Page(all[start..end], start, if end < |all| then Some(end) else None, |all|)
  }

  /** `exact_chunk_fact`, once the fact is found: all chunks by the loop, then the window. */
  method ChunkFact(text: string, chunk: nat, overlap: nat, startChunk: nat, maxChunks: nat)
      returns (r: Result<Page, ParameterError>, ghost all: seq<Chunk>)
    ensures r.Success? <==> ValidPaging(chunk, overlap, maxChunks)
    ensures r.Success? ==> Chunked(text, chunk, overlap, all) && r.value == PageOf(all, startChunk, maxChunks)
  {
    if !ValidPaging(chunk, overlap, maxChunks) {
      return Failure(InvalidBounds), [];
    }
    var chunks := ChunkText(text, chunk, overlap);
    return Success(PageOf(chunks, startChunk, maxChunks)), chunks;
  }

  /** `exact_chunk_context`, once the context is found: only the chunks of the window are cut. */
  function ChunkContext(text: string, chunk: nat, startChunk: nat, maxChunks: nat): Result<Page, ParameterError> {
    if !ValidPaging(chunk, 0, maxChunks) then Failure(InvalidBounds)
    else
      var total := TotalChunks(|text|, chunk);
      var start := Min(startChunk, total);
      var end := Min(total, start + maxChunks);
      Success(Page(seq(end - start, i requires 0 <= i < end - start => ContextChunk(text, chunk, start + i)),
                   start, if end < total then Some(end) else None, total))
  }

  lemma ContextChunkIs(text: string, chunk: nat, c: Chunk, i: nat)
    requires chunk > 0 && i < TotalChunks(|text|, chunk) && ChunkAt(text, chunk, 0, c, i)
    ensures c == ContextChunk(text, chunk, i)
  {
  }

  /** The closed form cuts the very window the loop would. */
  lemma ContextMeetsLoop(text: string, chunk: nat, startChunk: nat, maxChunks: nat, all: seq<Chunk>)
    requires ValidPaging(chunk, 0, maxChunks) && Chunked(text, chunk, 0, all)
    ensures ChunkContext(text, chunk, startChunk, maxChunks) == Success(PageOf(all, startChunk, maxChunks))
  {
    LoopMeetsClosedForm(|text|, chunk);
    forall i | 0 <= i < |all|
      ensures all[i] == ContextChunk(text, chunk, i)
    {
      ContextChunkIs(text, chunk, all[i], i);
    }
    assert ChunkContext(text, chunk, startChunk, maxChunks).value.chunks == PageOf(all, startChunk, maxChunks).chunks;
  }

  /** Following `next_chunk` from some page on. */
  function Follow(all: seq<Chunk>, startChunk: nat, maxChunks: nat): seq<Chunk>
    requires maxChunks > 0
    decreases |all| - startChunk
  {
    var page := PageOf(all, startChunk, maxChunks);
    match page.nextChunk
    case None => page.chunks
    case Some(next) => page.chunks + Follow(all, next, maxChunks)
  }

  lemma {:induction false} FollowIsRest(all: seq<Chunk>, startChunk: nat, maxChunks: nat)
    requires maxChunks > 0 && startChunk <= |all|
    ensures Follow(all, startChunk, maxChunks) == all[startChunk..]
    decreases |all| - startChunk
  {
    var page := PageOf(all, startChunk, maxChunks);
    if page.nextChunk.Some? {
      FollowIsRest(all, page.nextChunk.value, maxChunks);
    }
  }

  /** Following `next_chunk` from 0 visits every chunk exactly once, in order. */
  lemma PagesVisitAll(all: seq<Chunk>, maxChunks: nat)
    requires maxChunks > 0
    ensures Follow(all, 0, maxChunks) == all
  {
    FollowIsRest(all, 0, maxChunks);
  }

  // ---------- Reading a context slice by slice ----------

  /** What a reader is promised: a slice of the text from where it asked, no longer than it allowed and stopping no
      later than it asked, and what to ask for next while text is left. */
  ghost predicate Serves(text: string, start: nat, end: Option<nat>, maxChars: nat, slice: Slice) {
    && slice.start <= slice.end <= |text| && slice.totalChars == |text|
    && slice.content == text[slice.start..slice.end]
    && slice.start == (if start < |text| then start else |text|)
    && slice.end - slice.start <= maxChars && (end.Some? ==> slice.end <= end.value)
    && slice.nextStart == (if slice.end == |text| then None else Some(slice.end))
  }

  /** `exact_read_context`, once the context is found: the longest such slice. */
  function ReadContext(text: string, start: nat, end: Option<nat>, maxChars: nat): (r: Result<Slice, ParameterError>)
    ensures r.Success? <==> 1 <= maxChars <= 16_000 && (end.Some? ==> start <= end.value)
    ensures r.Success? ==> Serves(text, start, end, maxChars, r.value)
    ensures r.Success? ==>
              forall other :: Serves(text, start, end, maxChars, other) ==> other.end <= r.value.end
  {
    if maxChars == 0 || maxChars > MAX_CHUNK_CHARS || (end.Some? && end.value < start) then Failure(InvalidBounds)
    else
      var total := |text|;
      var from := Min(start, total);
      var requested := Min(if end.Some? then end.value else total, total);
      var to := Min(requested, from + maxChars);
      Success(Slice(CharSlice(text, from, to), from, to, total, if to < total then Some(to) else None))
  }

  /** `char_slice`: skip, then take what is left of the range. */
  function CharSlice(text: string, start: nat, end: nat): string {
    var rest := text[Min(start, |text|)..];
    rest[..Min(if start <= end then end - start else 0, |rest|)]
  }

  /** Following `next_start` for at most `rounds` calls; the flag says that the last call gave none. */
  function ReadOn(text: string, start: nat, end: Option<nat>, maxChars: nat, rounds: nat): (string, bool)
    requires 0 < maxChars <= MAX_CHUNK_CHARS && (end.Some? ==> start <= end.value)
    decreases rounds
  {
    if rounds == 0 then ("", false)
    else
      var slice := ReadContext(text, start, end, maxChars).value;
      match slice.nextStart
      case None => (slice.content, true)
      case Some(next) =>
        var (rest, ended) := ReadOn(text, next, end, maxChars, rounds - 1);
        (slice.content + rest, ended)
  }

  lemma {:induction false} ReadOnIsRest(text: string, start: nat, end: Option<nat>, maxChars: nat, rounds: nat)
    requires 0 < maxChars <= MAX_CHUNK_CHARS && start <= |text| && (end.Some? ==> end.value >= |text|)
    requires rounds > |text| - start
    ensures ReadOn(text, start, end, maxChars, rounds) == (text[start..], true)
    decreases rounds
  {
    var slice := ReadContext(text, start, end, maxChars).value;
    assert slice.content == text[start..slice.end];
    if slice.nextStart.Some? {
      ReadOnIsRest(text, slice.end, end, maxChars, rounds - 1);
      assert text[start..slice.end] + text[slice.end..] == text[start..];
    } else {
      assert text[start..|text|] == text[start..];
    }
  }

  lemma {:induction false} ReadOnStalls(text: string, start: nat, end: nat, maxChars: nat, rounds: nat)
    requires 0 < maxChars <= MAX_CHUNK_CHARS && start <= end < |text|
    ensures !ReadOn(text, start, Some(end), maxChars, rounds).1
    decreases rounds
  {
    if rounds > 0 {
      var slice := ReadContext(text, start, Some(end), maxChars).value;
      ReadOnStalls(text, slice.end, end, maxChars, rounds - 1);
    }
  }

  /** Following `next_start` from 0 comes to an end, and then has read the whole text once, exactly when no `end` in
      front of the end of the text is passed along; with such an `end` it asks for the same empty slice for ever. */
  lemma ReadingEndsIff(text: string, end: Option<nat>, maxChars: nat)
    requires 0 < maxChars <= MAX_CHUNK_CHARS
    ensures (exists rounds: nat :: ReadOn(text, 0, end, maxChars, rounds).1) <==> (end.Some? ==> end.value >= |text|)
    ensures (end.Some? ==> end.value >= |text|) ==> ReadOn(text, 0, end, maxChars, |text| + 1) == (text, true)
  {
    if end.Some? && end.value < |text| {
      forall rounds: nat
        ensures !ReadOn(text, 0, end, maxChars, rounds).1
      {
        ReadOnStalls(text, 0, end.value, maxChars, rounds);
      }
    } else {
      ReadOnIsRest(text, 0, end, maxChars, |text| + 1);
      assert ReadOn(text, 0, end, maxChars, |text| + 1).1;
    }
  }

  // ---------- Plain chunks ----------

  /** `char_chunks` */
  function CharChunks(text: string, chunk: nat): seq<string>
    requires chunk > 0
  {
    if text == "" then []
    else if |text| <= chunk then [text]
    else [text[..chunk]] + CharChunks(text[chunk..], chunk)
  }

  lemma {:induction false} CharChunksCount(text: string, chunk: nat)
    requires chunk > 0
    ensures |CharChunks(text, chunk)| == TotalChunks(|text|, chunk)
  {
    LoopMeetsClosedForm(|text|, chunk);
    if |text| > chunk {
      DivStep(|text| + chunk - 1, chunk);
      CharChunksCount(text[chunk..], chunk);
    }
  }

  lemma ShiftedSlice(text: string, shift: nat, from: nat, to: nat)
    requires from <= to && shift + to <= |text|
    ensures text[shift..][from..to] == text[from + shift..to + shift]
  {
  }

  lemma {:induction false} CharChunksAt(text: string, chunk: nat, i: nat)
    requires chunk > 0 && i < |CharChunks(text, chunk)|
    ensures 0 <= i * chunk < |text|
    ensures CharChunks(text, chunk)[i] == text[i * chunk..Min(|text|, i * chunk + chunk)]
  {
    if i > 0 {
      CharChunksAt(text[chunk..], chunk, i - 1);
      NextStart(i - 1, chunk);
      var from := (i - 1) * chunk;
      var to := Min(|text| - chunk, from + chunk);
      assert i * chunk == from + chunk && Min(|text|, i * chunk + chunk) == to + chunk;
      ShiftedSlice(text, chunk, from, to);
    }
  }

  /** Plain chunks are the contents the paged tools would serve at the same size. */
  lemma CharChunksAre(text: string, chunk: nat, i: nat)
    requires chunk > 0 && i < TotalChunks(|text|, chunk)
    ensures |CharChunks(text, chunk)| == TotalChunks(|text|, chunk)
    ensures CharChunks(text, chunk)[i] == ContextChunk(text, chunk, i).content
  {
    CharChunksCount(text, chunk);
    CharChunksAt(text, chunk, i);
  }
}
