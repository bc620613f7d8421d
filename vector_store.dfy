/**
 * The in-memory branch of the vector store in server/server.js and backend/server.js:
 * three parallel arrays `documents`, `embeddings` and `metadata`, appended to by
 * `storeDocumentChunks`, filtered by document id on delete, emptied on clear, and
 * ranked by a linear top-k `searchSimilarChunks`.
 */
module VectorStore {
  import opened Wrappers
  import opened Strings
  import Embedder

  /** The metadata object pushed for every chunk. */
  datatype ChunkMeta = ChunkMeta(documentId: string, documentName: string, chunkIndex: nat, chunkText: string)

  /** Position `k` of the three arrays, read together. */
  datatype Entry = Entry(document: string, embedding: seq<real>, meta: ChunkMeta)

  /** `{ text, source, similarity }`, one search hit. */
  datatype RankedChunk = RankedChunk(text: string, source: string, similarity: real)

  /** `{ index, similarity }`, what the search sorts. */
  datatype Scored = Scored(index: nat, score: real)

  const DefaultTopK := 5

  /** The three arrays read position by position. */
  function Zip(documents: seq<string>, embeddings: seq<seq<real>>, metadata: seq<ChunkMeta>): (r: seq<Entry>)
    requires |documents| == |embeddings| == |metadata|
    ensures |r| == |documents|
    ensures forall k :: 0 <= k < |r| ==> r[k] == Entry(documents[k], embeddings[k], metadata[k])
  {
    if documents == [] then []
    else [Entry(documents[0], embeddings[0], metadata[0])] + Zip(documents[1..], embeddings[1..], metadata[1..])
  }

  /** `xs.filter((_, i) => !(metadata[i].documentId === id))`. */
  function KeepOthers<T>(xs: seq<T>, metadata: seq<ChunkMeta>, id: string): (r: seq<T>)
    requires |xs| == |metadata|
    ensures |r| <= |xs|
  {
    if xs == [] then []
    else (if metadata[0].documentId != id then [xs[0]] else []) + KeepOthers(xs[1..], metadata[1..], id)
  }

  /** The entries that do not belong to document `id`, in their old order. */
  function WithoutDocument(entries: seq<Entry>, id: string): (r: seq<Entry>)
    ensures |r| <= |entries|
  {
    if entries == [] then []
    else (if entries[0].meta.documentId != id then [entries[0]] else []) + WithoutDocument(entries[1..], id)
  }

  /** For `storeDocumentChunks(name, chunks, _, documentId)`: `documentId || Date.now().toString()`. */
  function DocId(documentId: Option<string>, now: nat): (id: string)
    ensures documentId.Some? && documentId.value != "" ==> id == documentId.value
    ensures (documentId.None? || documentId.value == "") ==> id == NatToString(now)
  {
    if documentId.Some? && documentId.value != "" then documentId.value else NatToString(now)
  }

  /** `${docId}-chunk-${i}`: computed for every chunk, used only by the external store. */
  function ChunkId(docId: string, i: nat): string {
    docId + "-chunk-" + NatToString(i)
  }

  /** The entry pushed for chunk `i` of a batch. */
  function NewEntry(docId: string, documentName: string, chunks: seq<string>, i: nat): Entry
    requires i < |chunks|
  {
    Entry(chunks[i], Embedder.Accumulator(chunks[i]), ChunkMeta(docId, documentName, i, chunks[i]))
  }

  /** The entries one `storeDocumentChunks` call pushes, in order. */
  function NewEntries(docId: string, documentName: string, chunks: seq<string>): (r: seq<Entry>)
    ensures |r| == |chunks|
  {
    seq(|chunks|, i requires 0 <= i < |chunks| => NewEntry(docId, documentName, chunks, i))
  }

  class InMemoryStore {
    var documents: seq<string>
    var embeddings: seq<seq<real>>
    var metadata: seq<ChunkMeta>

    /** The three arrays stay aligned. */
    predicate Valid()
      reads this
    {
      |documents| == |embeddings| == |metadata|
    }

    function Entries(): seq<Entry>
      reads this
      requires Valid()
    {
      Zip(documents, embeddings, metadata)
    }

    /** `{ documents: [], embeddings: [], metadata: [] }`. */
    constructor ()
      ensures Valid() && Entries() == []
    {
      documents, embeddings, metadata := [], [], [];
    }

    /**
     * The in-memory branch of `storeDocumentChunks`: one entry per chunk, in order, with
     * chunkIndex `i`. `now` stands for `Date.now()`. The embedding stored is the bucket
     * accumulator of `generateEmbedding` before its scaling to unit length.
     */
    method StoreDocumentChunks(documentName: string, chunks: seq<string>, documentId: Option<string>, now: nat)
      requires Valid()
      modifies this
      ensures Valid()
      ensures Entries() == old(Entries()) + NewEntries(DocId(documentId, now), documentName, chunks)
    {
      var docId := DocId(documentId, now);
      ghost var before := Entries();
      var i := 0;
      while i < |chunks|
        invariant 0 <= i <= |chunks|
        invariant Valid()
        invariant Zip(documents, embeddings, metadata) == before + NewEntries(docId, documentName, chunks[..i])
      {
        var chunk := chunks[i];
        var embedding := Embedder.BucketEmbedding(chunk);
        var meta := ChunkMeta(docId, documentName, i, chunk);
        StoreStep(before, documents, embeddings, metadata, docId, documentName, chunks, i);
        documents, embeddings, metadata := documents + [chunk], embeddings + [embedding], metadata + [meta];
        i := i + 1;
      }
      assert chunks[..i] == chunks;
    }

    /** Delete of document `id`: `metadata` is filtered last, so all three filters read the old one. */
    method DeleteDocument(id: string)
      requires Valid()
      modifies this
      ensures Valid()
      ensures Entries() == WithoutDocument(old(Entries()), id)
    {
      KeepOthersZip(documents, embeddings, metadata, id);
      documents := KeepOthers(documents, metadata, id);
      embeddings := KeepOthers(embeddings, metadata, id);
      metadata := KeepOthers(metadata, metadata, id);
    }

    /** Clear: all three arrays become empty. */
    method Clear()
      modifies this
      ensures Valid() && Entries() == []
    {
      documents, embeddings, metadata := [], [], [];
    }
  }

  /** One turn of the `storeDocumentChunks` loop extends the entries by exactly the next new entry. */
  lemma StoreStep(before: seq<Entry>, documents: seq<string>, embeddings: seq<seq<real>>, metadata: seq<ChunkMeta>,
                  docId: string, documentName: string, chunks: seq<string>, i: nat)
    requires |documents| == |embeddings| == |metadata| && i < |chunks|
    requires Zip(documents, embeddings, metadata) == before + NewEntries(docId, documentName, chunks[..i])
    ensures Zip(documents + [chunks[i]], embeddings + [Embedder.Accumulator(chunks[i])],
                metadata + [ChunkMeta(docId, documentName, i, chunks[i])])
      == before + NewEntries(docId, documentName, chunks[..i + 1])
  {
    var e := NewEntry(docId, documentName, chunks, i);
    PushEntry(documents, embeddings, metadata, chunks[i], Embedder.Accumulator(chunks[i]), ChunkMeta(docId, documentName, i, chunks[i]));
    NewEntriesStep(docId, documentName, chunks, i);
    assert before + NewEntries(docId, documentName, chunks[..i]) + [e] == before + (NewEntries(docId, documentName, chunks[..i]) + [e]);
  }

  /** Pushing one element onto each array pushes one entry. */
  lemma {:induction false} PushEntry(documents: seq<string>, embeddings: seq<seq<real>>, metadata: seq<ChunkMeta>,
                                     d: string, e: seq<real>, m: ChunkMeta)
    requires |documents| == |embeddings| == |metadata|
    ensures Zip(documents + [d], embeddings + [e], metadata + [m]) == Zip(documents, embeddings, metadata) + [Entry(d, e, m)]
  {
  }

  lemma NewEntriesStep(docId: string, documentName: string, chunks: seq<string>, i: nat)
    requires i < |chunks|
    ensures NewEntries(docId, documentName, chunks[..i + 1]) ==
      NewEntries(docId, documentName, chunks[..i]) + [NewEntry(docId, documentName, chunks, i)]
  {
    var a, b := NewEntries(docId, documentName, chunks[..i + 1]), NewEntries(docId, documentName, chunks[..i]) + [NewEntry(docId, documentName, chunks, i)];
    forall k | 0 <= k < |a| ensures a[k] == b[k] {
      assert chunks[..i + 1][k] == chunks[k];
      if k < i {
        assert chunks[..i][k] == chunks[k];
      }
    }
  }

  /** Filtering the three arrays by the old metadata filters the entries. */
  lemma {:induction false} KeepOthersZip(documents: seq<string>, embeddings: seq<seq<real>>, metadata: seq<ChunkMeta>, id: string)
    requires |documents| == |embeddings| == |metadata|
    ensures |KeepOthers(documents, metadata, id)| == |KeepOthers(embeddings, metadata, id)| == |KeepOthers(metadata, metadata, id)|
    ensures Zip(KeepOthers(documents, metadata, id), KeepOthers(embeddings, metadata, id), KeepOthers(metadata, metadata, id))
      == WithoutDocument(Zip(documents, embeddings, metadata), id)
  {
    if documents != [] {
      KeepOthersZip(documents[1..], embeddings[1..], metadata[1..], id);
      var z := Zip(documents, embeddings, metadata);
      assert z[1..] == Zip(documents[1..], embeddings[1..], metadata[1..]);
    }
  }

  // ---- delete ----

  /** After delete no entry of document `id` is left, and every other entry is kept. */
  lemma {:induction false} WithoutDocumentMembers(entries: seq<Entry>, id: string, e: Entry)
    ensures e in WithoutDocument(entries, id) <==> e in entries && e.meta.documentId != id
  {
    if entries != [] {
      WithoutDocumentMembers(entries[1..], id, e);
      assert entries == [entries[0]] + entries[1..];
    }
  }

  lemma AppendAssoc<T>(x: seq<T>, y: seq<T>, z: seq<T>)
    ensures x + (y + z) == (x + y) + z
  {
  }

  /** Delete works piece by piece, so it keeps the relative order of what it keeps. */
  lemma {:induction false} WithoutDocumentAppend(a: seq<Entry>, b: seq<Entry>, id: string)
    ensures WithoutDocument(a + b, id) == WithoutDocument(a, id) + WithoutDocument(b, id)
  {
    if a == [] {
      assert a + b == b;
    } else {
      WithoutDocumentAppend(a[1..], b, id);
      assert (a + b)[0] == a[0];
      assert (a + b)[1..] == a[1..] + b;
      var head := if a[0].meta.documentId != id then [a[0]] else [];
      assert WithoutDocument(a + b, id) == head + WithoutDocument(a[1..] + b, id);
      AppendAssoc(head, WithoutDocument(a[1..], id), WithoutDocument(b, id));
    }
  }

  /** Deleting an id no entry carries changes nothing. */
  lemma {:induction false} WithoutAbsentDocument(entries: seq<Entry>, id: string)
    requires forall k :: 0 <= k < |entries| ==> entries[k].meta.documentId != id
    ensures WithoutDocument(entries, id) == entries
  {
    if entries != [] {
      WithoutAbsentDocument(entries[1..], id);
    }
  }

  /** Deleting the id every entry carries removes everything. */
  lemma {:induction false} WithoutOnlyDocument(entries: seq<Entry>, id: string)
    requires forall k :: 0 <= k < |entries| ==> entries[k].meta.documentId == id
    ensures WithoutDocument(entries, id) == []
  {
    if entries != [] {
      WithoutOnlyDocument(entries[1..], id);
    }
  }

  /** Delete takes away a whole batch of document `id`, and leaves the batch of any other document. */
  lemma WithoutBatch(docId: string, documentName: string, chunks: seq<string>, id: string)
    ensures WithoutDocument(NewEntries(docId, documentName, chunks), id) ==
      if docId == id then [] else NewEntries(docId, documentName, chunks)
  {
    if docId == id {
      WithoutOnlyDocument(NewEntries(docId, documentName, chunks), id);
    } else {
      WithoutAbsentDocument(NewEntries(docId, documentName, chunks), id);
    }
  }

  /** Deleting twice is deleting once. */
  lemma WithoutDocumentIdempotent(entries: seq<Entry>, id: string)
    ensures WithoutDocument(WithoutDocument(entries, id), id) == WithoutDocument(entries, id)
  {
    var r := WithoutDocument(entries, id);
    forall k | 0 <= k < |r| ensures r[k].meta.documentId != id {
      WithoutDocumentMembers(entries, id, r[k]);
    }
    WithoutAbsentDocument(r, id);
  }

  /** The chunks of one document as one `storeDocumentChunks` call files them. */
  datatype Batch = Batch(docId: string, documentName: string, chunks: seq<string>)

  function BatchEntries(b: Batch): seq<Entry> {
    NewEntries(b.docId, b.documentName, b.chunks)
  }

  /** The entries a run of `storeDocumentChunks` calls appends, one batch after another. */
  function Stored(batches: seq<Batch>): seq<Entry> {
    if batches == [] then [] else Stored(batches[..|batches| - 1]) + BatchEntries(batches[|batches| - 1])
  }

  /** The batches whose document id is not `id`, in their order. */
  function BatchesWithout(batches: seq<Batch>, id: string): (r: seq<Batch>)
    ensures forall k :: 0 <= k < |r| ==> r[k].docId != id
  {
    if batches == [] then []
    else
      var init, last := batches[..|batches| - 1], batches[|batches| - 1];
      assert batches == init + [last];
      BatchesWithout(init, id) + (if last.docId == id then [] else [last])
  }

  lemma StoredAppend(batches: seq<Batch>, b: Batch)
    ensures Stored(batches + [b]) == Stored(batches) + BatchEntries(b)
  {
    assert (batches + [b])[..|batches|] == batches;
  }

  /**
   * Deleting `id` from what a run of batches stored is storing only the batches of the
   * other documents: each batch goes whole or stays whole, and the order is kept.
   */
  lemma {:induction false} WithoutStored(batches: seq<Batch>, id: string)
    ensures WithoutDocument(Stored(batches), id) == Stored(BatchesWithout(batches, id))
    decreases |batches|
  {
    if batches != [] {
      var init, last := batches[..|batches| - 1], batches[|batches| - 1];
      WithoutStored(init, id);
      WithoutDocumentAppend(Stored(init), BatchEntries(last), id);
      WithoutBatch(last.docId, last.documentName, last.chunks, id);
      var rest := BatchesWithout(init, id);
      if last.docId == id {
        assert BatchesWithout(batches, id) == rest + [];
        assert rest + [] == rest;
      } else {
        assert BatchesWithout(batches, id) == rest + [last];
        StoredAppend(rest, last);
      }
    }
  }

  /** Deleting an id no batch carries changes nothing. */
  lemma {:induction false} BatchesWithoutAbsent(batches: seq<Batch>, id: string)
    requires forall k :: 0 <= k < |batches| ==> batches[k].docId != id
    ensures BatchesWithout(batches, id) == batches
    decreases |batches|
  {
    if batches != [] {
      var init := batches[..|batches| - 1];
      BatchesWithoutAbsent(init, id);
      assert batches == init + [batches[|batches| - 1]];
    }
  }

  // ---- store ----

  /** Entry `i` of a batch is chunk `i`, with chunkIndex `i` and the batch's document id. */
  lemma NewEntriesAt(docId: string, documentName: string, chunks: seq<string>, i: nat)
    requires i < |chunks|
    ensures var e := NewEntries(docId, documentName, chunks)[i];
      e.document == chunks[i] && e.meta.chunkText == chunks[i] && e.meta.chunkIndex == i &&
      e.meta.documentId == docId && e.meta.documentName == documentName &&
      |e.embedding| == Embedder.Dimension
  {
  }

  /** Two chunks of one batch never share an id. */
  lemma ChunkIdInjective(docId: string, i: nat, j: nat)
    requires ChunkId(docId, i) == ChunkId(docId, j)
    ensures i == j
  {
    var a, b := NatToString(i), NatToString(j);
    var p := docId + "-chunk-";
    assert ChunkId(docId, i) == p + a && ChunkId(docId, j) == p + b;
    assert a == (p + a)[|p|..];
    assert b == (p + b)[|p|..];
    NatToStringInjective(i, j);
  }

  // ---- search ----

  /** `a` goes before `b` in the result: higher similarity first, earlier entry on a tie. */
  predicate Before(a: Scored, b: Scored) {
    a.score > b.score || (a.score == b.score && a.index < b.index)
  }

  predicate Ranked(xs: seq<Scored>) {
    forall i, j :: 0 <= i < j < |xs| ==> Before(xs[i], xs[j])
  }

  /**
   * One step of the stable sort with comparator `b.similarity - a.similarity`: `x`, which
   * came first, stays ahead of `ys[0]` unless `ys[0]` is strictly more similar.
   */
  function Insert(x: Scored, ys: seq<Scored>): (r: seq<Scored>)
    ensures |r| == |ys| + 1
  {
    if ys == [] || ys[0].score <= x.score then [x] + ys else [ys[0]] + Insert(x, ys[1..])
  }

  /** `similarities.sort((a, b) => b.similarity - a.similarity)`: JavaScript's sort is stable. */
  function Sort(xs: seq<Scored>): (r: seq<Scored>)
    ensures |r| == |xs|
  {
    if xs == [] then [] else Insert(xs[0], Sort(xs[1..]))
  }

  lemma {:induction false} InsertPermutes(x: Scored, ys: seq<Scored>)
    ensures multiset(Insert(x, ys)) == multiset(ys) + multiset{x}
  {
    if ys != [] && ys[0].score > x.score {
      InsertPermutes(x, ys[1..]);
      assert ys == [ys[0]] + ys[1..];
    }
  }

  lemma {:induction false} SortPermutes(xs: seq<Scored>)
    ensures multiset(Sort(xs)) == multiset(xs)
  {
    if xs != [] {
      SortPermutes(xs[1..]);
      InsertPermutes(xs[0], Sort(xs[1..]));
      assert xs == [xs[0]] + xs[1..];
    }
  }

  lemma {:induction false} InsertRanked(x: Scored, ys: seq<Scored>)
    requires Ranked(ys)
    requires forall k :: 0 <= k < |ys| ==> x.index < ys[k].index
    ensures Ranked(Insert(x, ys))
  {
    if ys != [] && ys[0].score > x.score {
      InsertRanked(x, ys[1..]);
      InsertPermutes(x, ys[1..]);
      var r := Insert(x, ys);
      forall j | 1 <= j < |r| ensures Before(r[0], r[j]) {
        assert r[j] in multiset(Insert(x, ys[1..]));
        if r[j] != x {
          assert r[j] in ys[1..];
        }
      }
    }
  }

  predicate IndicesIncrease(xs: seq<Scored>) {
    forall i, j :: 0 <= i < j < |xs| ==> xs[i].index < xs[j].index
  }

  /** Fed in index order, the sort produces the ranking order. */
  lemma {:induction false} SortRanked(xs: seq<Scored>)
    requires IndicesIncrease(xs)
    ensures Ranked(Sort(xs))
  {
    if xs != [] {
      SortRanked(xs[1..]);
      SortPermutes(xs[1..]);
      var ys := Sort(xs[1..]);
      forall k | 0 <= k < |ys| ensures xs[0].index < ys[k].index {
        assert ys[k] in multiset(xs[1..]);
        var j :| 0 <= j < |xs[1..]| && xs[1..][j] == ys[k];
        assert xs[j + 1] == ys[k];
      }
      InsertRanked(xs[0], ys);
    }
  }

  /** `embeddings.map((emb, i) => ({ index: i, similarity: cosineSimilarity(query, emb) }))`. */
  function Scores(entries: seq<Entry>, query: seq<real>, similarity: (seq<real>, seq<real>) -> real): (r: seq<Scored>)
    ensures |r| == |entries|
  {
    seq(|entries|, i requires 0 <= i < |entries| => Scored(i, similarity(query, entries[i].embedding)))
  }

  function Hit(entries: seq<Entry>, s: Scored): RankedChunk
    requires s.index < |entries|
  {
    RankedChunk(entries[s.index].document, entries[s.index].meta.documentName, s.score)
  }

  /** Every ranked item is the score of one entry. */
  lemma SortedScores(entries: seq<Entry>, query: seq<real>, similarity: (seq<real>, seq<real>) -> real)
    ensures var ranked := Sort(Scores(entries, query, similarity));
      && Ranked(ranked)
      && multiset(ranked) == multiset(Scores(entries, query, similarity))
      && forall k :: 0 <= k < |ranked| ==>
        ranked[k].index < |entries| && ranked[k].score == similarity(query, entries[ranked[k].index].embedding)
  {
    var scores := Scores(entries, query, similarity);
    var ranked := Sort(scores);
    SortPermutes(scores);
    SortRanked(scores);
    forall k | 0 <= k < |ranked|
      ensures ranked[k].index < |entries| && ranked[k].score == similarity(query, entries[ranked[k].index].embedding)
    {
      assert ranked[k] in multiset(scores);
      var i :| 0 <= i < |scores| && scores[i] == ranked[k];
    }
  }

  /** The first `topK` items of the ranking: `similarities.slice(0, topK)`. */
  function Top(entries: seq<Entry>, query: seq<real>, similarity: (seq<real>, seq<real>) -> real, topK: nat): (top: seq<Scored>)
    ensures |top| == if topK <= |entries| then topK else |entries|
    ensures forall k :: 0 <= k < |top| ==> top[k].index < |entries|
  {
    SortedScores(entries, query, similarity);
    var ranked := Sort(Scores(entries, query, similarity));
    ranked[..if topK <= |ranked| then topK else |ranked|]
  }

  /** The in-memory branch of `searchSimilarChunks(query, topK)`. */
  function SearchSimilarChunks(entries: seq<Entry>, query: seq<real>, similarity: (seq<real>, seq<real>) -> real,
                               topK: nat := DefaultTopK): seq<RankedChunk>
  {
    if |entries| == 0 then []
    else
      var top := Top(entries, query, similarity, topK);
      seq(|top|, k requires 0 <= k < |top| => Hit(entries, top[k]))
  }

  /** The `topK` chosen entries, best first, at distinct indices, with their own scores. */
  lemma TopRanked(entries: seq<Entry>, query: seq<real>, similarity: (seq<real>, seq<real>) -> real, topK: nat)
    ensures var top := Top(entries, query, similarity, topK);
      && Ranked(top)
      && (forall k :: 0 <= k < |top| ==> top[k].score == similarity(query, entries[top[k].index].embedding))
      && (forall i, j :: 0 <= i < j < |top| ==> top[i].index != top[j].index)
  {
    var ranked := Sort(Scores(entries, query, similarity));
    var top := Top(entries, query, similarity, topK);
    SortedScores(entries, query, similarity);
    assert forall k :: 0 <= k < |top| ==> top[k] == ranked[k];
    forall i, j | 0 <= i < j < |top| ensures top[i].index != top[j].index {
      assert Before(ranked[i], ranked[j]);
    }
  }

  /**
   * An entry left out of the `topK` ranks below every chosen one: lower similarity, or
   * equal similarity and a later index.
   */
  lemma LeftOutRanksBelow(entries: seq<Entry>, query: seq<real>, similarity: (seq<real>, seq<real>) -> real, topK: nat, idx: nat)
    requires idx < |entries|
    requires forall k :: 0 <= k < |Top(entries, query, similarity, topK)| ==> Top(entries, query, similarity, topK)[k].index != idx
    ensures forall k :: 0 <= k < |Top(entries, query, similarity, topK)| ==>
      Before(Top(entries, query, similarity, topK)[k], Scored(idx, similarity(query, entries[idx].embedding)))
  {
    var scores := Scores(entries, query, similarity);
    var ranked := Sort(scores);
    var top := Top(entries, query, similarity, topK);
    SortPermutes(scores);
    SortRanked(scores);
    assert scores[idx] in multiset(ranked);
    var p :| 0 <= p < |ranked| && ranked[p] == scores[idx];
    assert forall k :: 0 <= k < |top| ==> top[k] == ranked[k];
    forall k | 0 <= k < |top| ensures Before(top[k], scores[idx]) {
      assert Before(ranked[k], ranked[p]);
    }
  }

  /** `hit` is the text, source name and similarity of one stored position. */
  predicate FromEntry(entries: seq<Entry>, query: seq<real>, similarity: (seq<real>, seq<real>) -> real, hit: RankedChunk) {
    exists idx :: 0 <= idx < |entries| && hit == RankedChunk(entries[idx].document, entries[idx].meta.documentName, similarity(query, entries[idx].embedding))
  }

  /**
   * Search on an empty store gives []; otherwise `min(topK, n)` hits, by non-increasing
   * similarity, each hit's text and source taken from one stored position.
   */
  lemma SearchShape(entries: seq<Entry>, query: seq<real>, similarity: (seq<real>, seq<real>) -> real, topK: nat)
    ensures var r := SearchSimilarChunks(entries, query, similarity, topK);
      && (entries == [] ==> r == [])
      && |r| == (if topK <= |entries| then topK else |entries|)
      && (forall i, j :: 0 <= i < j < |r| ==> r[i].similarity >= r[j].similarity)
      && forall k :: 0 <= k < |r| ==> FromEntry(entries, query, similarity, r[k])
  {
    var r := SearchSimilarChunks(entries, query, similarity, topK);
    if entries != [] {
      var top := Top(entries, query, similarity, topK);
      TopRanked(entries, query, similarity, topK);
      forall i, j | 0 <= i < j < |r| ensures r[i].similarity >= r[j].similarity {
        assert Before(top[i], top[j]);
      }
      forall k | 0 <= k < |r| ensures FromEntry(entries, query, similarity, r[k]) {
        var idx := top[k].index;
        assert r[k] == RankedChunk(entries[idx].document, entries[idx].meta.documentName, similarity(query, entries[idx].embedding));
      }
    }
  }

  // ---- chat sources ----

  /** `[...new Set(xs)]`: each value once, at its first occurrence. */
  function Distinct(xs: seq<string>): (r: seq<string>)
    ensures |r| <= |xs|
  {
    if xs == [] then []
    else
      var init := Distinct(xs[..|xs| - 1]);
      if xs[|xs| - 1] in xs[..|xs| - 1] then init else init + [xs[|xs| - 1]]
  }

  /** `searchResults.length > 0 ? [...new Set(searchResults.map(r => r.source))] : []`. */
  function ChatSources(results: seq<RankedChunk>): seq<string> {
    if |results| > 0 then Distinct(seq(|results|, k requires 0 <= k < |results| => results[k].source)) else []
  }

  /** The position of the first occurrence of `x`. */
  function FirstIndex(xs: seq<string>, x: string): (i: nat)
    requires x in xs
    ensures i < |xs| && xs[i] == x && x !in xs[..i]
  {
    if xs[0] == x then 0 else 1 + FirstIndex(xs[1..], x)
  }

  /** The distinct values are exactly the values, without repeats, in order of first occurrence. */
  lemma {:induction false} DistinctIsSet(xs: seq<string>)
    ensures forall x :: x in Distinct(xs) <==> x in xs
    ensures forall i, j :: 0 <= i < j < |Distinct(xs)| ==> Distinct(xs)[i] != Distinct(xs)[j]
    ensures forall i, j :: 0 <= i < j < |Distinct(xs)| ==> FirstIndex(xs, Distinct(xs)[i]) < FirstIndex(xs, Distinct(xs)[j])
  {
    if xs != [] {
      var init := xs[..|xs| - 1];
      var last := xs[|xs| - 1];
      DistinctIsSet(init);
      var d := Distinct(init);
      assert xs == init + [last];
      forall x | x in init ensures FirstIndex(xs, x) == FirstIndex(init, x) {
        FirstIndexPrefix(init, last, x);
      }
      if last !in init {
        FirstIndexLast(init, last);
        forall i | 0 <= i < |d| ensures FirstIndex(xs, d[i]) < FirstIndex(xs, last) {
          assert d[i] in init;
        }
      }
    }
  }

  lemma {:induction false} FirstIndexPrefix(init: seq<string>, last: string, x: string)
    requires x in init
    ensures FirstIndex(init + [last], x) == FirstIndex(init, x)
  {
    if init[0] != x {
      FirstIndexPrefix(init[1..], last, x);
      assert (init + [last])[1..] == init[1..] + [last];
    }
  }

  lemma FirstIndexLast(init: seq<string>, last: string)
    requires last !in init
    ensures FirstIndex(init + [last], last) == |init|
  {
    var i := FirstIndex(init + [last], last);
    assert forall k :: 0 <= k < |init| ==> init[k] == (init + [last])[k];
  }
}
