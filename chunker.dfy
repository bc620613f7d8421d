/**
 * `splitIntoChunks` of server/server.js and backend/server.js (the two copies are
 * identical): fixed windows of `chunkSize` characters whose starts advance by
 * `chunkSize - overlap`, each trimmed, then every piece of 50 characters or fewer
 * is dropped.
 */
module Chunker {
  import opened Strings

  const DefaultChunkSize := 1000
  const DefaultOverlap := 200
  /** Pieces of at most this many characters are dropped. */
  const MinChunkLength := 50

  function Min(a: int, b: int): int {
    if a <= b then a else b
  }

  /** `text.slice(start, end)` for `0 <= start <= end`: the end is clamped to the text. */
  function Slice(text: string, start: nat, end: nat): (r: string)
    requires start <= end
    ensures |r| <= end - start
  {
    if start >= |text| then "" else text[start..Min(end, |text|)]
  }

  /** The piece the loop pushes when it is at `at`: `text.slice(at, at + size).trim()`. */
  function Window(text: string, size: nat, at: nat): string {
    Trim(Slice(text, at, at + size))
  }

  /** How many times the loop body runs when it starts at `start`. */
  function Rounds(length: nat, step: nat, start: nat): nat
    requires 0 < step
    decreases length - start
  {
    if start >= length then 0 else 1 + Rounds(length, step, start + step)
  }

  /** Where the loop is after `k` turns begun at `start`. */
  function WindowStart(start: nat, step: nat, k: nat): nat
    decreases k
  {
    if k == 0 then start else WindowStart(start + step, step, k - 1)
  }

  /** Every piece the loop pushes, in order, before the length filter. */
  function Windows(text: string, size: int, overlap: int): seq<string>
    requires 0 < size && overlap < size
  {
    seq(Rounds(|text|, size - overlap, 0), k requires 0 <= k => Window(text, size, WindowStart(0, size - overlap, k)))
  }

  /** `chunks.filter(chunk => chunk.length > 50)`. */
  function KeepLong(pieces: seq<string>): (r: seq<string>)
    ensures forall k :: 0 <= k < |r| ==> |r[k]| > MinChunkLength && r[k] in pieces
  {
    if pieces == [] then []
    else (if |pieces[0]| > MinChunkLength then [pieces[0]] else []) + KeepLong(pieces[1..])
  }

  /** The value `splitIntoChunks(text, size, overlap)` returns. */
  function Chunks(text: string, size: int, overlap: int): seq<string>
    requires 0 < size && overlap < size
  {
    KeepLong(Windows(text, size, overlap))
  }

  /**
   * `splitIntoChunks`. The loop only terminates when `overlap < chunkSize`; the source
   * has no guard for this, so here it is the caller's obligation.
   */
  method SplitIntoChunks(text: string, chunkSize: int := DefaultChunkSize, overlap: int := DefaultOverlap)
    returns (chunks: seq<string>)
    requires 0 < chunkSize && overlap < chunkSize
    ensures chunks == Chunks(text, chunkSize, overlap)
    ensures forall k :: 0 <= k < |chunks| ==> MinChunkLength < |chunks[k]| <= chunkSize && IsTrimmed(chunks[k])
  {
    var pieces := CollectWindows(text, chunkSize, overlap);
    chunks := KeepLong(pieces);
    ChunksBounded(text, chunkSize, overlap);
  }

  /** The `while (start < text.length)` loop of `splitIntoChunks`, before the filter. */
  method CollectWindows(text: string, chunkSize: int, overlap: int) returns (pieces: seq<string>)
    requires 0 < chunkSize && overlap < chunkSize
    ensures pieces == Windows(text, chunkSize, overlap)
  {
    pieces := [];
    var start: nat := 0;
    ghost var turns: nat := 0;
    while start < |text|
      invariant start == WindowStart(0, chunkSize - overlap, turns)
      invariant turns + Rounds(|text|, chunkSize - overlap, start) == Rounds(|text|, chunkSize - overlap, 0)
      invariant |pieces| == turns
      invariant forall k :: 0 <= k < turns ==>
        pieces[k] == Window(text, chunkSize, WindowStart(0, chunkSize - overlap, k))
      decreases |text| - start
    {
      WindowStartNext(0, chunkSize - overlap, turns);
      pieces := pieces + [Window(text, chunkSize, start)];
      start := start + chunkSize - overlap;
      turns := turns + 1;
    }
    AllWindows(pieces, text, chunkSize, overlap);
  }

  /** A sequence that has every window at its place is the sequence of windows. */
  lemma AllWindows(pieces: seq<string>, text: string, size: int, overlap: int)
    requires 0 < size && overlap < size
    requires |pieces| == Rounds(|text|, size - overlap, 0)
    requires forall k :: 0 <= k < |pieces| ==> pieces[k] == Window(text, size, WindowStart(0, size - overlap, k))
    ensures pieces == Windows(text, size, overlap)
  {
  }

  lemma {:induction false} WindowStartNext(start: nat, step: nat, k: nat)
    ensures WindowStart(start, step, k + 1) == WindowStart(start, step, k) + step
    decreases k
  {
    if k > 0 {
      WindowStartNext(start + step, step, k - 1);
    }
  }

  lemma {:induction false} WindowStartFrom(start: nat, step: nat, k: nat)
    ensures WindowStart(start, step, k) >= start
    decreases k
  {
    if k > 0 {
      WindowStartFrom(start + step, step, k - 1);
    }
  }

  /** After `k` turns the loop is `k` steps in: the starts are 0, s - o, 2(s - o), ... */
  lemma {:induction false} WindowStartIs(start: nat, step: nat, k: nat)
    ensures WindowStart(start, step, k) == start + k * step
    decreases k
  {
    if k > 0 {
      WindowStartIs(start + step, step, k - 1);
      assert (k - 1) * step == k * step - step;
    }
  }

  /** The loop runs a `k`-th time exactly when its `k`-th start lies inside the text. */
  lemma {:induction false} RoundsCount(length: nat, step: nat, start: nat, k: nat)
    requires 0 < step
    ensures k < Rounds(length, step, start) <==> WindowStart(start, step, k) < length
    decreases length - start
  {
    if start < length && k > 0 {
      RoundsCount(length, step, start + step, k - 1);
    } else if start >= length {
      WindowStartFrom(start, step, k);
    }
  }

  /**
   * Window `k` exists exactly when its start `WindowStart(0, size - overlap, k)`
   * (that is `k * (size - overlap)`, by `WindowStartIs`) is inside the text, and it is
   * the trimmed slice of `size` characters there.
   */
  lemma WindowAt(text: string, size: int, overlap: int, k: nat)
    requires 0 < size && overlap < size
    ensures k < |Windows(text, size, overlap)| <==> WindowStart(0, size - overlap, k) < |text|
    ensures k < |Windows(text, size, overlap)| ==>
      Windows(text, size, overlap)[k] ==
        Trim(Slice(text, WindowStart(0, size - overlap, k), WindowStart(0, size - overlap, k) + size))
  {
    RoundsCount(|text|, size - overlap, 0, k);
  }

  /** Every window is trimmed and has at most `size` characters. */
  lemma WindowsBounded(text: string, size: int, overlap: int)
    requires 0 < size && overlap < size
    ensures forall k :: 0 <= k < |Windows(text, size, overlap)| ==>
      |Windows(text, size, overlap)[k]| <= size && IsTrimmed(Windows(text, size, overlap)[k])
  {
    forall k | 0 <= k < |Windows(text, size, overlap)|
      ensures |Windows(text, size, overlap)[k]| <= size && IsTrimmed(Windows(text, size, overlap)[k])
    {
      var at := WindowStart(0, size - overlap, k);
      var _ := TrimShape(Slice(text, at, at + size));
    }
  }

  /** Every chunk is trimmed and has more than 50 and at most `size` characters. */
  lemma ChunksBounded(text: string, size: int, overlap: int)
    requires 0 < size && overlap < size
    ensures forall k :: 0 <= k < |Chunks(text, size, overlap)| ==>
      MinChunkLength < |Chunks(text, size, overlap)[k]| <= size && IsTrimmed(Chunks(text, size, overlap)[k])
  {
    WindowsBounded(text, size, overlap);
    var w := Windows(text, size, overlap);
    forall k | 0 <= k < |Chunks(text, size, overlap)|
      ensures |Chunks(text, size, overlap)[k]| <= size && IsTrimmed(Chunks(text, size, overlap)[k])
    {
      var c := Chunks(text, size, overlap)[k];
      var i :| 0 <= i < |w| && w[i] == c;
    }
  }

  /** The worked cases: empty text gives no chunk; 1200 copies of 'A' give chunks of 1000 and 400. */
  lemma ChunkExamples()
    ensures Chunks("", DefaultChunkSize, DefaultOverlap) == []
    ensures var a := seq(1200, _ => 'A');
      Chunks(a, DefaultChunkSize, DefaultOverlap) == [a[..1000], a[800..]]
  {
    assert Rounds(0, 800, 0) == 0;
    assert Windows("", 1000, 200) == [];
    var a := seq(1200, _ => 'A');
    var first, second := a[..1000], a[800..];
    var w := Windows(a, 1000, 200);
    WindowsOfRepeatedA(a);
    KeepLongPair(first, second);
  }

  lemma WindowsOfRepeatedA(a: string)
    requires a == seq(1200, _ => 'A')
    ensures Windows(a, 1000, 200) == [a[..1000], a[800..]]
  {
    var first, second := a[..1000], a[800..];
    assert Rounds(1200, 800, 1600) == 0;
    assert Rounds(1200, 800, 800) == 1;
    assert Rounds(1200, 800, 0) == 2;
    assert WindowStart(0, 800, 0) == 0;
    assert WindowStart(0, 800, 1) == 800;
    assert Slice(a, 0, 1000) == first;
    assert Slice(a, 800, 1800) == second;
    assert first[0] == 'A' && first[999] == 'A';
    assert second[0] == 'A' && second[399] == 'A';
    TrimOfTrimmed(first);
    TrimOfTrimmed(second);
    var w := Windows(a, 1000, 200);
    assert w[0] == first;
    assert w[1] == second;
  }

  lemma KeepLongPair(x: string, y: string)
    requires |x| > MinChunkLength && |y| > MinChunkLength
    ensures KeepLong([x, y]) == [x, y]
  {
    assert [y][1..] == [];
    assert KeepLong([y]) == [y] + KeepLong([]);
    assert [x, y][1..] == [y];
    assert KeepLong([x, y]) == [x] + KeepLong([y]);
  }
}
