/**
 * `chunk_text` of run_model.py: the words of the document are cut into
 * windows of at most `MaxTokens` words, a new window starting every
 * `Stride` = `MaxTokens - Overlap` words, each window joined back with
 * single spaces.
 */
module Chunking {
  import opened Wrappers
  import opened Text

  const MaxTokens: nat := 512
  const Overlap: nat := 50
  const Stride: nat := MaxTokens - Overlap

  /** The length of `range(0, n, Stride)`: the number of windows. */
  function ChunkCount(n: nat): nat
  {
    (n + Stride - 1) / Stride
  }

  /** `words[k * Stride : k * Stride + MaxTokens]`, with Python's clamping of
      slice bounds. */
  function Window(words: seq<string>, k: nat): (w: seq<string>)
    ensures |w| <= MaxTokens
    ensures k * Stride < |words| ==> w != []
  {
    words[Min(k * Stride, |words|)..Min(k * Stride + MaxTokens, |words|)]
  }

  /** The list `chunk_text(text)` returns. */
  function TextChunks(text: string): (chunks: seq<string>)
    ensures |chunks| == ChunkCount(|Words(text)|)
    ensures chunks == [] <==> AllSpace(text)
  {
    var words := Words(text);
    ChunksNone(text);
    seq(ChunkCount(|words|), k requires 0 <= k => JoinWith(" ", Window(words, k)))
  }

  /** A text has no windows exactly when it is all whitespace. */
  lemma ChunksNone(text: string)
    ensures ChunkCount(|Words(text)|) == 0 <==> AllSpace(text)
  {
    WordsEmpty(text);
    ChunkCountMeaning(|Words(text)|, 0);
  }

  /** Window `k` exists exactly when it starts inside the word list; so there
      are ceil(n / Stride) windows and none for an empty word list. */
  lemma ChunkCountMeaning(n: nat, k: nat)
    ensures k < ChunkCount(n) <==> k * Stride < n
  {
    var q := (n + Stride - 1) / Stride;
    var r := (n + Stride - 1) % Stride;
    assert n + Stride - 1 == q * Stride + r;
    if k < q {
      assert k * Stride <= q * Stride - Stride;
    } else {
      assert k * Stride >= q * Stride;
    }
  }

  /** The step after the last window is the first that starts at or past
      the end of the word list. */
  lemma LastWindow(n: nat, c: nat)
    requires c * Stride >= n
    requires c == 0 || (c - 1) * Stride < n
    ensures c == ChunkCount(n)
  {
    ChunkCountMeaning(n, c);
    if c > 0 {
      ChunkCountMeaning(n, c - 1);
    }
  }

  /** A window that exists starts at word `k * Stride` and holds between one
      and `MaxTokens` words. */
  lemma WindowAt(words: seq<string>, k: nat)
    requires k < ChunkCount(|words|)
    ensures Window(words, k) == words[k * Stride..Min(k * Stride + MaxTokens, |words|)]
    ensures 1 <= |Window(words, k)| <= MaxTokens
  {
    ChunkCountMeaning(|words|, k);
  }

  /** Every word lies in some window, at its offset from the window's start. */
  lemma ChunkCoverage(words: seq<string>, j: nat)
    requires j < |words|
    ensures var k := j / Stride;
      && k < ChunkCount(|words|)
      && k * Stride <= j < k * Stride + |Window(words, k)|
      && Window(words, k)[j - k * Stride] == words[j]
  {
    var k := j / Stride;
    assert k * Stride <= j < k * Stride + Stride;
    ChunkCountMeaning(|words|, k);
  }

  /** The words of window `k` past the stride are the first words of window
      `k + 1`; when window `k + 1` is full, they are exactly `Overlap` words. */
  lemma ChunkOverlap(words: seq<string>, k: nat)
    requires k + 1 < ChunkCount(|words|)
    ensures |Window(words, k)| > Stride
    ensures Window(words, k)[Stride..] == Window(words, k + 1)[..|Window(words, k)| - Stride]
    ensures |Window(words, k + 1)| == MaxTokens ==> |Window(words, k)[Stride..]| == Overlap
  {
    ChunkCountMeaning(|words|, k);
    ChunkCountMeaning(|words|, k + 1);
    var n := |words|;
    var lo := k * Stride;
    assert (k + 1) * Stride == lo + Stride;
    var w := Window(words, k);
    var v := Window(words, k + 1);
    assert w == words[lo..Min(lo + MaxTokens, n)];
    assert v == words[lo + Stride..Min(lo + Stride + MaxTokens, n)];
    assert |w| > Stride;
    forall i | 0 <= i < |w| - Stride
      ensures w[Stride..][i] == v[..|w| - Stride][i]
    {
      assert w[Stride + i] == words[lo + Stride + i];
    }
  }

  /** Each chunk, split again, gives back its window: so a chunk holds at
      most `MaxTokens` words, and at least one. */
  lemma ChunkWords(text: string, k: nat)
    requires k < |TextChunks(text)|
    ensures Words(TextChunks(text)[k]) == Window(Words(text), k)
    ensures 1 <= |Words(TextChunks(text)[k])| <= MaxTokens
  {
    var words := Words(text);
    WindowAt(words, k);
    var w := Window(words, k);
    assert forall i :: 0 <= i < |w| ==> w[i] == words[k * Stride + i];
    SplitJoin(w);
  }

  /** `chunk_text(text)`: the stepped `range` loop that appends one joined
      window per step. */
  method ChunkText(text: string) returns (chunks: seq<string>)
    ensures chunks == TextChunks(text)
    ensures |chunks| == ChunkCount(|Words(text)|)
  {
    var words := Words(text);
    chunks := [];
    var i := 0;
    while i < |words|
      invariant i == |chunks| * Stride
      invariant chunks == [] || (|chunks| - 1) * Stride < |words|
      invariant forall k :: 0 <= k < |chunks| ==> chunks[k] == JoinWith(" ", Window(words, k))
    {
      assert words[i..Min(i + MaxTokens, |words|)] == Window(words, |chunks|);
      chunks := chunks + [JoinWith(" ", words[i..Min(i + MaxTokens, |words|)])];
      i := i + Stride;
    }
    LastWindow(|words|, |chunks|);
    assert chunks == TextChunks(text);
  }
}
