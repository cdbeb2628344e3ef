/** Splitting source text into overlapping windows of words. */
module Chunking {
  import opened Basics
  import opened Text

  const DEFAULT_CHUNK_SIZE := 500
  const DEFAULT_CHUNK_OVERLAP := 50

  /** The word positions `lo .. hi` that one chunk holds. */
  datatype Span = Span(lo: nat, hi: nat)

  /** Where the Python slice `words[start : start + size]` of `n` words ends;
      a negative bound counts from the end of the list. */
  function SliceEnd(n: nat, start: nat, size: int): (hi: int)
    ensures hi <= n
  {
    if start + size >= n then n
    else if start + size >= 0 then start + size
    else if n + start + size >= 0 then n + start + size
    else 0
  }

  /** The spans the loop emits from `start` on. */
  function SpansFrom(n: nat, size: int, step: nat, start: nat): (spans: seq<Span>)
    requires step > 0
    ensures forall i :: 0 <= i < |spans| ==> spans[i].lo < spans[i].hi <= n
    decreases n - start
  {
    if start >= n then [] else
      var hi := SliceEnd(n, start, size);
      if hi <= start then []
      else if start + size >= n then [Span(start, hi)]
      else [Span(start, hi)] + SpansFrom(n, size, step, start + step)
  }

  /** The spans of a text of `n` words. */
  function Spans(n: nat, size: int, overlap: int): (spans: seq<Span>)
    requires overlap < size
    ensures forall i :: 0 <= i < |spans| ==> spans[i].lo < spans[i].hi <= n
  {
    SpansFrom(n, size, size - overlap, 0)
  }

  /** The words of each span. */
  function Windows(words: seq<string>, spans: seq<Span>): (ws: seq<seq<string>>)
    requires forall i :: 0 <= i < |spans| ==> spans[i].lo < spans[i].hi <= |words|
    ensures |ws| == |spans|
  {
    seq(|spans|, i requires 0 <= i < |spans| => words[spans[i].lo..spans[i].hi])
  }

  function JoinEach(ws: seq<seq<string>>): (ts: seq<string>)
    ensures |ts| == |ws|
  {
    seq(|ws|, i requires 0 <= i < |ws| => Join(ws[i]))
  }

  function SplitEach(ts: seq<string>): (ws: seq<seq<string>>)
    ensures |ws| == |ts|
  {
    seq(|ts|, i requires 0 <= i < |ts| => Split(ts[i]))
  }

  function ChunksOf(text: string, size: int, overlap: int): seq<string>
    requires overlap < size
  {
    JoinEach(Windows(Split(text), Spans(|Split(text)|, size, overlap)))
  }

  /** The chunks of `text` under the sizes the embedding worker uses. */
  function Chunks(text: string): seq<string> {
    ChunksOf(text, DEFAULT_CHUNK_SIZE, DEFAULT_CHUNK_OVERLAP)
  }

  /** The Python slice `words[start : start + size]`. */
  function Slice(words: seq<string>, start: nat, size: int): seq<string> {
    var end := SliceEnd(|words|, start, size);
    if start < end then words[start..end] else []
  }

  /** What the loop returns that has emitted these chunks and is at `start`. */
  function Emitted(chunks: seq<string>, words: seq<string>, size: int, step: nat, start: nat): seq<string>
    requires step > 0
    decreases |words| - start
  {
    if start >= |words| || Slice(words, start, size) == [] then chunks
    else
      var more := chunks + [Join(Slice(words, start, size))];
      if start + size >= |words| then more else Emitted(more, words, size, step, start + step)
  }

  lemma {:induction false} FirstWindow(words: seq<string>, first: Span, spans: seq<Span>)
    requires first.lo < first.hi <= |words|
    requires forall i :: 0 <= i < |spans| ==> spans[i].lo < spans[i].hi <= |words|
    ensures Windows(words, [first] + spans) == [words[first.lo..first.hi]] + Windows(words, spans)
  {
  }

  lemma {:induction false} FirstChunk(words: seq<string>, first: Span, spans: seq<Span>)
    requires first.lo < first.hi <= |words|
    requires forall i :: 0 <= i < |spans| ==> spans[i].lo < spans[i].hi <= |words|
    ensures JoinEach(Windows(words, [first] + spans))
         == [Join(words[first.lo..first.hi])] + JoinEach(Windows(words, spans))
  {
    FirstWindow(words, first, spans);
  }

  lemma {:induction false} EmittedWindows(chunks: seq<string>, words: seq<string>, size: int, step: nat, start: nat)
    requires step > 0
    ensures Emitted(chunks, words, size, step, start)
         == chunks + JoinEach(Windows(words, SpansFrom(|words|, size, step, start)))
    decreases |words| - start
  {
    var n := |words|;
    if start < n && SliceEnd(n, start, size) > start {
      var first := Span(start, SliceEnd(n, start, size));
      var chunk := Join(words[first.lo..first.hi]);
      if start + size >= n {
        FirstChunk(words, first, []);
        assert [first] + [] == [first];
      } else {
        FirstChunk(words, first, SpansFrom(n, size, step, start + step));
        EmittedWindows(chunks + [chunk], words, size, step, start + step);
      }
    }
  }

  lemma {:induction false} EmittedAll(text: string, size: int, overlap: int)
    requires overlap < size
    ensures Emitted([], Split(text), size, size - overlap, 0) == ChunksOf(text, size, overlap)
  {
    EmittedWindows([], Split(text), size, size - overlap, 0);
  }

  lemma {:induction false} NoChunks(text: string, size: int, overlap: int)
    requires overlap < size && Split(text) == []
    ensures ChunksOf(text, size, overlap) == []
  {
  }

  /** The loop of `chunk_text`, over the words of a text. */
  method EmitChunks(words: seq<string>, chunkSize: int, step: nat) returns (chunks: seq<string>)
    requires step > 0
    ensures chunks == Emitted([], words, chunkSize, step, 0)
  {
    chunks := [];
    var start := 0;
    while start < |words|
      invariant 0 <= start
      invariant Emitted(chunks, words, chunkSize, step, start) == Emitted([], words, chunkSize, step, 0)
      decreases |words| - start
    {
      var chunkWords := Slice(words, start, chunkSize);
      if chunkWords == [] {
        break;
      }
      chunks := chunks + [Join(chunkWords)];
      if start + chunkSize >= |words| {
        break;
      }
      start := start + step;
    }
  }

  /** The loop emits all chunks of the text. */
  method EmitAll(text: string, words: seq<string>, chunkSize: int, overlap: int) returns (chunks: seq<string>)
    requires overlap < chunkSize && words == Split(text)
    ensures chunks == ChunksOf(text, chunkSize, overlap)
  {
    EmittedAll(text, chunkSize, overlap);
    chunks := EmitChunks(words, chunkSize, chunkSize - overlap);
  }

  /** `chunk_text`; `None` is the ValueError. */
  method ChunkText(text: string, chunkSize: int := DEFAULT_CHUNK_SIZE, overlap: int := DEFAULT_CHUNK_OVERLAP)
    returns (r: Option<seq<string>>)
    ensures r == if overlap >= chunkSize then None else Some(ChunksOf(text, chunkSize, overlap))
  {
    if overlap >= chunkSize {
      return None;
    }
    var words := Split(text);
    if words == [] {
      NoChunks(text, chunkSize, overlap);
      return Some([]);
    }
    var chunks := EmitAll(text, words, chunkSize, overlap);
    return Some(chunks);
  }

  // ----- what the chunks are, for 0 <= overlap < size -----

  function NewItems<T>(ws: seq<seq<T>>, overlap: nat): seq<T> {
    if ws == [] then []
    else (if |ws[0]| <= overlap then [] else ws[0][overlap..]) + NewItems(ws[1..], overlap)
  }

  /** The first window whole, then each later one without its first `overlap` items. */
  function Reassemble<T>(ws: seq<seq<T>>, overlap: nat): seq<T> {
    if ws == [] then [] else ws[0] + NewItems(ws[1..], overlap)
  }

  /** The windows from `start` on, for sizes that step forward. */
  function WindowsFrom(words: seq<string>, size: nat, step: nat, start: nat): seq<seq<string>>
    requires 0 < step
    decreases |words| - start
  {
    if start >= |words| then []
    else if start + size >= |words| then [words[start..]]
    else [words[start..start + size]] + WindowsFrom(words, size, step, start + step)
  }

  lemma {:induction false} WindowsFromSpans(words: seq<string>, size: nat, step: nat, start: nat)
    requires 0 < step && 0 < size
    ensures Windows(words, SpansFrom(|words|, size, step, start)) == WindowsFrom(words, size, step, start)
    decreases |words| - start
  {
    var n := |words|;
    if start < n {
      assert words[start..n] == words[start..];
      if start + size < n {
        FirstWindow(words, Span(start, start + size), SpansFrom(n, size, step, start + step));
        WindowsFromSpans(words, size, step, start + step);
      }
    }
  }

  lemma {:induction false} FirstNewItems<T>(w: seq<T>, ws: seq<seq<T>>, overlap: nat)
    requires overlap < |w|
    ensures NewItems([w] + ws, overlap) == w[overlap..] + NewItems(ws, overlap)
  {
    assert ([w] + ws)[1..] == ws;
  }

  lemma {:induction false} SliceJoins<T>(s: seq<T>, lo: nat, mid: nat, hi: nat)
    requires lo <= mid <= hi <= |s|
    ensures s[lo..hi][mid - lo..] + s[hi..] == s[mid..]
  {
  }

  lemma {:induction false} NewItemsFrom(words: seq<string>, size: nat, overlap: nat, start: nat)
    requires overlap < size && start + overlap < |words|
    ensures NewItems(WindowsFrom(words, size, size - overlap, start), overlap) == words[start + overlap..]
    decreases |words| - start
  {
    if start + size >= |words| {
      FirstNewItems(words[start..], [], overlap);
    } else {
      var next := start + size - overlap;
      FirstNewItems(words[start..start + size], WindowsFrom(words, size, size - overlap, next), overlap);
      NewItemsFrom(words, size, overlap, next);
      SliceJoins(words, start, start + overlap, start + size);
    }
  }

  lemma {:induction false} FirstWhole<T>(w: seq<T>, ws: seq<seq<T>>, overlap: nat)
    ensures Reassemble([w] + ws, overlap) == w + NewItems(ws, overlap)
  {
    assert ([w] + ws)[1..] == ws;
  }

  /** The windows put together again are the words, nothing lost, doubled or moved. */
  lemma {:induction false} WindowsReassemble(words: seq<string>, size: nat, overlap: nat)
    requires overlap < size
    ensures Reassemble(Windows(words, Spans(|words|, size, overlap)), overlap) == words
  {
    var step := size - overlap;
    WindowsFromSpans(words, size, step, 0);
    if size < |words| {
      FirstWhole(words[0..size], WindowsFrom(words, size, step, step), overlap);
      NewItemsFrom(words, size, overlap, step);
      SliceJoins(words, 0, 0, size);
    } else if words != [] {
      FirstWhole(words[0..], [], overlap);
    }
  }

  /** The same through the emitted strings: splitting each chunk on whitespace and
      reassembling gives `text.split()`, for every text. */
  lemma {:induction false} ChunkStringsReassemble(text: string, size: nat, overlap: nat)
    requires overlap < size
    ensures Reassemble(SplitEach(ChunksOf(text, size, overlap)), overlap) == Split(text)
  {
    var words := Split(text);
    var ws := Windows(words, Spans(|words|, size, overlap));
    forall i | 0 <= i < |ws|
      ensures Split(JoinEach(ws)[i]) == ws[i]
    {
      SplitJoin(ws[i]);
    }
    assert SplitEach(JoinEach(ws)) == ws;
    WindowsReassemble(words, size, overlap);
  }

  /** Chunk `i` is the window of `size` words at `i * step`; only the last one may be
      shorter, and every later chunk holds more than the overlap, so it adds a word. */
  lemma {:induction false} SpanAt(n: nat, size: nat, overlap: nat, start: nat, i: nat)
    requires overlap < size && (start == 0 || start + overlap < n)
    requires i < |SpansFrom(n, size, size - overlap, start)|
    ensures
      var spans := SpansFrom(n, size, size - overlap, start);
      && spans[i].lo == start + i * (size - overlap)
      && (i + 1 < |spans| ==> spans[i].hi == spans[i].lo + size < n)
      && (i + 1 == |spans| ==> spans[i].hi == n <= spans[i].lo + size)
      && (start + i > 0 ==> spans[i].hi - spans[i].lo > overlap)
    decreases i
  {
    var step := size - overlap;
    if i > 0 {
      SpanAt(n, size, overlap, start + step, i - 1);
      assert start + i * step == start + step + (i - 1) * step;
    } else if start + size < n {
      assert |SpansFrom(n, size, step, start + step)| > 0;
    }
  }

  function CeilDiv(a: nat, b: nat): nat
    requires b > 0
  {
    (a + b - 1) / b
  }

  lemma {:induction false} MultiplesApart(b: nat, p: int, q: int)
    ensures p < q ==> b * p + b <= b * q
    decreases q - p
  {
    if p < q {
      MultiplesApart(b, p, q - 1);
      assert b * q == b * (q - 1) + b;
    }
  }

  lemma CeilDivStep(a: nat, b: nat)
    requires b > 0
    ensures CeilDiv(a + b, b) == CeilDiv(a, b) + 1
  {
    var x := a + b - 1;
    var q, p := x / b + 1, (x + b) / b;
    assert x == b * (x / b) + x % b;
    assert b * q == b * (x / b) + b;
    assert x + b == b * p + (x + b) % b;
    MultiplesApart(b, p, q);
    MultiplesApart(b, q, p);
  }

  lemma CeilDivSmall(a: nat, b: nat)
    requires 0 < a <= b
    ensures CeilDiv(a, b) == 1
  {
  }

  lemma {:induction false} CountFrom(n: nat, size: nat, overlap: nat, start: nat)
    requires overlap < size && start < n
    ensures |SpansFrom(n, size, size - overlap, start)|
            == if n - start <= size then 1 else 1 + CeilDiv(n - start - size, size - overlap)
    decreases n - start
  {
    var step := size - overlap;
    if n - start > size {
      CountFrom(n, size, overlap, start + step);
      var a := n - start - size;
      if a > step {
        CeilDivStep(a - step, step);
      } else {
        CeilDivSmall(a, step);
      }
    }
  }

  /** How many chunks there are; in particular the loop never meets an empty window,
      for its `break` on one would end the count early. */
  lemma {:induction false} ChunkCount(text: string, size: nat, overlap: nat)
    requires overlap < size
    ensures
      var n := |Split(text)|;
      |ChunksOf(text, size, overlap)|
      == if n == 0 then 0 else if n <= size then 1 else 1 + CeilDiv(n - size, size - overlap)
  {
    if |Split(text)| > 0 {
      CountFrom(|Split(text)|, size, overlap, 0);
    }
  }

  lemma {:induction false} ChunkOfSpan(text: string, i: nat)
    requires i < |Chunks(text)|
    ensures
      var words, spans := Split(text), Spans(|Split(text)|, 500, 50);
      |spans| == |Chunks(text)| && Chunks(text)[i] == Join(words[spans[i].lo..spans[i].hi])
  {
  }

  /** Every 450 words a chunk of up to 500 starts, and the last one ends with the text. */
  lemma {:induction false} DefaultSpanAt(n: nat, i: nat)
    requires i < |Spans(n, 500, 50)|
    ensures
      var spans := Spans(n, 500, 50);
      spans[i] == Span(i * 450, if i + 1 < |spans| then i * 450 + 500 else n)
  {
    SpanAt(n, 500, 50, 0, i);
  }

  /** The chunks that are embedded, in full. */
  lemma {:induction false} ChunksExactly(text: string, i: nat)
    ensures
      var words, chunks := Split(text), Chunks(text);
      && |chunks| == (if words == [] then 0 else if |words| <= 500 then 1 else 1 + (|words| - 500 + 449) / 450)
      && (i < |chunks| ==>
            var hi := if i + 1 < |chunks| then i * 450 + 500 else |words|;
            i * 450 < hi <= |words| && chunks[i] == Join(words[i * 450..hi]))
  {
    ChunkCount(text, 500, 50);
    if i < |Chunks(text)| {
      ChunkOfSpan(text, i);
      DefaultSpanAt(|Split(text)|, i);
    }
  }

  // ----- arbitrary sizes -----

  ghost predicate Covers(spans: seq<Span>, k: nat) {
    exists i :: 0 <= i < |spans| && spans[i].lo <= k < spans[i].hi
  }

  lemma {:induction false} SpansStartLater(n: nat, size: int, step: nat, start: nat, k: nat)
    requires step > 0 && k < start
    ensures !Covers(SpansFrom(n, size, step, start), k)
    decreases n - start
  {
    if start < n {
      SpansStartLater(n, size, step, start + step, k);
      var spans, rest := SpansFrom(n, size, step, start), SpansFrom(n, size, step, start + step);
      forall i | 0 <= i < |spans|
        ensures !(spans[i].lo <= k < spans[i].hi)
      {
        assert i > 0 ==> spans[i] == rest[i - 1];
      }
    }
  }

  lemma {:induction false} NegativeSizeMissesLast(n: nat, size: int, step: nat, start: nat)
    requires step > 0 && size <= 0 && n > 0
    ensures !Covers(SpansFrom(n, size, step, start), n - 1)
    decreases n - start
  {
    if start < n {
      NegativeSizeMissesLast(n, size, step, start + step);
      var spans, rest := SpansFrom(n, size, step, start), SpansFrom(n, size, step, start + step);
      forall i | 0 <= i < |spans|
        ensures !(spans[i].lo <= n - 1 < spans[i].hi)
      {
        assert i > 0 ==> spans[i] == rest[i - 1];
      }
    }
  }

  lemma {:induction false} CoveredFrom(n: nat, size: nat, overlap: nat, start: nat, k: nat)
    requires overlap < size && start <= k < n
    ensures Covers(SpansFrom(n, size, size - overlap, start), k)
    decreases n - start
  {
    var step := size - overlap;
    var spans := SpansFrom(n, size, step, start);
    if k < SliceEnd(n, start, size) {
      assert spans[0].lo <= k < spans[0].hi;
    } else {
      CoveredFrom(n, size, overlap, start + step, k);
      var rest := SpansFrom(n, size, step, start + step);
      var i :| 0 <= i < |rest| && rest[i].lo <= k < rest[i].hi;
      assert spans[i + 1] == rest[i];
    }
  }

  /** `chunk_text` accepts any sizes with `overlap < chunk_size`, negative ones too. It
      keeps every word exactly when the overlap is not negative or one window holds all. */
  lemma {:induction false} NoWordLostIff(n: nat, size: int, overlap: int)
    requires overlap < size
    ensures (forall k :: 0 <= k < n ==> Covers(Spans(n, size, overlap), k))
            <==> (n == 0 || overlap >= 0 || n <= size)
  {
    var step := size - overlap;
    var spans := Spans(n, size, overlap);
    if n > 0 && overlap >= 0 {
      forall k | 0 <= k < n
        ensures Covers(spans, k)
      {
        CoveredFrom(n, size, overlap, 0, k);
      }
    } else if n > 0 && n <= size {
      assert spans[0] == Span(0, n);
    } else if n > 0 && size <= 0 {
      NegativeSizeMissesLast(n, size, step, 0);
    } else if n > 0 {
      SpansStartLater(n, size, step, step, size);
      var rest := SpansFrom(n, size, step, step);
      forall i | 0 <= i < |spans|
        ensures !(spans[i].lo <= size < spans[i].hi)
      {
        assert i > 0 ==> spans[i] == rest[i - 1];
      }
      assert !Covers(spans, size);
    }
  }
}
