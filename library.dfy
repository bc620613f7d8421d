/**
 * The document routes of server/server.js and backend/server.js over the in-memory
 * store: upload (extract, chunk, store, record), delete by record id, clear, and the
 * rebuild loop. `documentsMetadata` is the list of records.
 */
module Library {
  import opened Wrappers
  import opened Strings
  import Chunker
  import VectorStore

  /** Which of the two copies of the server: they differ in upload storage and messages. */
  datatype Copy = ServerCopy | BackendCopy

  /** One element of `documentsMetadata`; `uploadedAt` is not modelled. */
  datatype DocumentRecord = DocumentRecord(id: string, name: string, size: nat, chunks: nat, path: Option<string>)

  /**
   * One uploaded file, with what the environment decides for it: the result of text
   * extraction, `Date.now()` when its chunks are stored, and the clock and random values
   * its record id is made of.
   */
  datatype UploadedFile = UploadedFile(originalName: string, size: nat, path: string, text: Result<string>,
                                       storedAt: nat, idClock: nat, idRandom: nat)

  /** `${Date.now()}-${Math.round(Math.random() * 1E9)}-${originalname}` (multer's file name in the backend copy). */
  function RecordId(clock: nat, random: nat, name: string): string {
    NatToString(clock) + "-" + NatToString(random) + "-" + name
  }

  /** Upload and rebuild both chunk with `splitIntoChunks(text, 1000)`. */
  function FileChunks(text: string): seq<string> {
    Chunker.Chunks(text, 1000, Chunker.DefaultOverlap)
  }

  /** The chunks of an extraction; one that failed has none (the routes never store it). */
  function Chunked(text: Result<string>): seq<string> {
    if text.Success? then FileChunks(text.value) else []
  }

  /** The record an upload makes for a file: the chunk count, and the stored path only in the backend copy. */
  function UploadRecord(copy: Copy, file: UploadedFile): DocumentRecord {
    DocumentRecord(RecordId(file.idClock, file.idRandom, file.originalName), file.originalName, file.size,
                   |Chunked(file.text)|, if copy == BackendCopy then Some(file.path) else None)
  }

  function UploadRecords(copy: Copy, files: seq<UploadedFile>): (r: seq<DocumentRecord>)
    ensures |r| == |files|
  {
    if files == [] then [] else UploadRecords(copy, files[..|files| - 1]) + [UploadRecord(copy, files[|files| - 1])]
  }

  /** How many files, from the first, extract successfully. */
  function Extracted(files: seq<UploadedFile>): (n: nat)
    ensures n <= |files|
    ensures forall k :: 0 <= k < n ==> files[k].text.Success?
    ensures n < |files| ==> files[n].text.Failure?
  {
    if files == [] || files[0].text.Failure? then 0 else 1 + Extracted(files[1..])
  }

  /** What one uploaded file stores: its chunks under `Date.now().toString()`. */
  function UploadBatch(file: UploadedFile): VectorStore.Batch {
    VectorStore.Batch(NatToString(file.storedAt), file.originalName, Chunked(file.text))
  }

  function UploadBatches(files: seq<UploadedFile>): (r: seq<VectorStore.Batch>)
    ensures |r| == |files|
  {
    if files == [] then [] else UploadBatches(files[..|files| - 1]) + [UploadBatch(files[|files| - 1])]
  }

  /** The message of the failure that stops an upload at `file`. */
  function UploadError(copy: Copy, file: UploadedFile): string
    requires file.text.Failure?
  {
    if copy == ServerCopy then "Failed to process " + file.originalName + ": " + file.text.error else file.text.error
  }

  /** What `extractTextFromFile(doc.path)` gives for a record; with no path it throws. */
  function RebuildText(rec: DocumentRecord, extract: string -> Result<string>): Result<string> {
    if rec.path.None? then Failure(MissingPath) else extract(rec.path.value)
  }

  const MissingPath := "The \"path\" argument must be of type string. Received undefined"

  /** How many records, from the first, the rebuild gets text for. */
  function Rebuildable(records: seq<DocumentRecord>, extract: string -> Result<string>): (n: nat)
    ensures n <= |records|
    ensures forall k :: 0 <= k < n ==> RebuildText(records[k], extract).Success?
    ensures n < |records| ==> RebuildText(records[n], extract).Failure?
  {
    if records == [] || RebuildText(records[0], extract).Failure? then 0 else 1 + Rebuildable(records[1..], extract)
  }

  /** What the rebuild stores for one record: its chunks under the record's id. */
  function RebuildBatch(rec: DocumentRecord, extract: string -> Result<string>): VectorStore.Batch {
    VectorStore.Batch(rec.id, rec.name, Chunked(RebuildText(rec, extract)))
  }

  function RebuildBatches(records: seq<DocumentRecord>, extract: string -> Result<string>): (r: seq<VectorStore.Batch>)
    ensures |r| == |records|
  {
    if records == [] then [] else RebuildBatches(records[..|records| - 1], extract) + [RebuildBatch(records[|records| - 1], extract)]
  }

  /** The records after a rebuild that got through the first `n`: `doc.chunks = chunks.length`. */
  function Recounted(records: seq<DocumentRecord>, extract: string -> Result<string>, n: nat): (r: seq<DocumentRecord>)
    ensures |r| == |records|
  {
    seq(|records|, k requires 0 <= k < |records| =>
      if k < n then records[k].(chunks := |Chunked(RebuildText(records[k], extract))|) else records[k])
  }

  /** `documentsMetadata.findIndex(doc => doc.id === id)`. */
  function FindRecord(records: seq<DocumentRecord>, id: string): (r: Option<nat>)
    ensures r.Some? ==> r.value < |records| && records[r.value].id == id
    ensures r.Some? ==> forall k :: 0 <= k < r.value ==> records[k].id != id
    ensures r.None? ==> forall k :: 0 <= k < |records| ==> records[k].id != id
  {
    if records == [] then None
    else if records[0].id == id then Some(0)
    else match FindRecord(records[1..], id) {
      case None => None
      case Some(i) => Some(i + 1)
    }
  }

  class Server {
    const store: VectorStore.InMemoryStore
    var records: seq<DocumentRecord>

    /** The store's arrays are aligned and every record has an id: uploads always make one. */
    ghost predicate Valid()
      reads this, store
    {
      store.Valid() && forall k :: 0 <= k < |records| ==> records[k].id != ""
    }

    constructor ()
      ensures Valid() && store.Entries() == [] && records == []
    {
      store := new VectorStore.InMemoryStore();
      records := [];
    }

    /**
     * `POST /api/documents/upload`. Files are handled in order; the first extraction
     * failure ends the request with an error, after the earlier files were stored and
     * recorded. Chunks are stored under `Date.now()`, records get a different id.
     */
    method Upload(copy: Copy, files: seq<UploadedFile>) returns (r: Result<seq<DocumentRecord>>)
      requires Valid()
      modifies this, store
      ensures Valid()
      ensures files == [] ==>
        r == Failure("No files uploaded") && store.Entries() == old(store.Entries()) && records == old(records)
      ensures files != [] ==>
        && store.Entries() == old(store.Entries()) + VectorStore.Stored(UploadBatches(files[..Extracted(files)]))
        && records == old(records) + UploadRecords(copy, files[..Extracted(files)])
        && (r.Success? <==> Extracted(files) == |files|)
        && (r.Success? ==> r.value == UploadRecords(copy, files))
        && (r.Failure? ==> r.error == UploadError(copy, files[Extracted(files)]))
    {
      if files == [] {
        return Failure("No files uploaded");
      }
      ghost var before, beforeRecords := store.Entries(), records;
      ghost var n := Extracted(files);
      var uploaded: seq<DocumentRecord> := [];
      var i := 0;
      while i < |files|
        invariant 0 <= i <= n
        invariant Valid()
        invariant store.Entries() == before + VectorStore.Stored(UploadBatches(files[..i]))
        invariant uploaded == UploadRecords(copy, files[..i])
        invariant records == beforeRecords + uploaded
      {
        var file := files[i];
        if file.text.Failure? {
          assert n == i;
          return Failure(UploadError(copy, file));
        }
        assert i < n;
        ghost var done := store.Entries();
        var rec := UploadFile(copy, file);
        UploadProgress(before, done, store.Entries(), files, i);
        UploadRecordsStep(copy, files, i);
        AppendStep(beforeRecords, uploaded, [rec], uploaded + [rec]);
        uploaded := uploaded + [rec];
        i := i + 1;
      }
      assert files[..i] == files && Extracted(files) == |files|;
      return Success(uploaded);
    }

    /** The body of the upload loop for a file whose text was extracted. */
    method UploadFile(copy: Copy, file: UploadedFile) returns (rec: DocumentRecord)
      requires Valid() && file.text.Success?
      modifies this, store
      ensures Valid()
      ensures rec == UploadRecord(copy, file)
      ensures store.Entries() == old(store.Entries()) + VectorStore.BatchEntries(UploadBatch(file))
      ensures records == old(records) + [rec]
    {
      var chunks := Chunker.SplitIntoChunks(file.text.value, 1000);
      store.StoreDocumentChunks(file.originalName, chunks, None, file.storedAt);
      rec := DocumentRecord(RecordId(file.idClock, file.idRandom, file.originalName), file.originalName,
                            file.size, |chunks|, if copy == BackendCopy then Some(file.path) else None);
      assert rec.id[|NatToString(file.idClock)|] == '-';
      records := records + [rec];
    }

    /**
     * `DELETE /api/documents/:id`: an unknown id is "Document not found"; otherwise the
     * store drops the entries whose documentId is `id` and the record is spliced out.
     */
    method DeleteRecord(id: string) returns (r: Result<()>)
      requires Valid()
      modifies this, store
      ensures Valid()
      ensures FindRecord(old(records), id).None? ==>
        r == Failure("Document not found") && store.Entries() == old(store.Entries()) && records == old(records)
      ensures FindRecord(old(records), id).Some? ==>
        var i := FindRecord(old(records), id).value;
        && r == Success(())
        && store.Entries() == VectorStore.WithoutDocument(old(store.Entries()), id)
        && records == old(records)[..i] + old(records)[i + 1..]
    {
      var found := FindRecord(records, id);
      if found.None? {
        return Failure("Document not found");
      }
      store.DeleteDocument(id);
      records := records[..found.value] + records[found.value + 1..];
      return Success(());
    }

    /** `DELETE /api/documents/clear`: the store and the records become empty. */
    method ClearAll()
      requires Valid()
      modifies this, store
      ensures Valid() && store.Entries() == [] && records == []
    {
      store.Clear();
      records := [];
    }

    /** The body of the rebuild loop for record `i`, whose text is `text`. */
    method RebuildRecord(i: nat, text: string)
      requires Valid() && i < |records|
      modifies this, store
      ensures Valid()
      ensures store.Entries() == old(store.Entries()) +
        VectorStore.BatchEntries(VectorStore.Batch(old(records)[i].id, old(records)[i].name, FileChunks(text)))
      ensures records == old(records)[i := old(records)[i].(chunks := |FileChunks(text)|)]
    {
      var doc := records[i];
      var chunks := Chunker.SplitIntoChunks(text, 1000);
      // `Date.now()` is not consulted: the record id is never empty.
      store.StoreDocumentChunks(doc.name, chunks, Some(doc.id), 0);
      records := records[i := doc.(chunks := |chunks|)];
    }

    /**
     * `POST /api/documents/rebuild`: clear the store, then for each record in order
     * extract its text, store its chunks under the record's own id and set its chunk
     * count. The first failure ends the loop, leaving the store partly rebuilt.
     */
    method Rebuild(extract: string -> Result<string>) returns (r: Result<()>)
      requires Valid()
      modifies this, store
      ensures Valid()
      ensures store.Entries() == VectorStore.Stored(RebuildBatches(old(records)[..Rebuildable(old(records), extract)], extract))
      ensures records == Recounted(old(records), extract, Rebuildable(old(records), extract))
      ensures r.Success? <==> Rebuildable(old(records), extract) == |old(records)|
      ensures r.Failure? ==> r.error == RebuildText(old(records)[Rebuildable(old(records), extract)], extract).error
    {
      ghost var original := records;
      ghost var n := Rebuildable(original, extract);
      store.Clear();
      var i := 0;
      while i < |records|
        invariant 0 <= i <= n && |records| == |original|
        invariant Valid()
        invariant store.Entries() == VectorStore.Stored(RebuildBatches(original[..i], extract))
        invariant records == Recounted(original, extract, i)
      {
        var doc := records[i];
        assert doc == original[i];
        var text := if doc.path.None? then Failure(MissingPath) else extract(doc.path.value);
        assert text == RebuildText(original[i], extract);
        if text.Failure? {
          assert n == i;
          return Failure(text.error);
        }
        assert i < n;
        ghost var done := store.Entries();
        RebuildRecord(i, text.value);
        RebuildProgress(done, store.Entries(), original, extract, i);
        RecountedStep(original, extract, i, records);
        i := i + 1;
      }
      assert n == |original| && original[..i] == original;
      return Success(());
    }
  }

  lemma AppendStep<T>(before: seq<T>, done: seq<T>, next: seq<T>, all: seq<T>)
    requires all == done + next
    ensures (before + done) + next == before + all
  {
  }

  lemma UploadProgress(before: seq<VectorStore.Entry>, done: seq<VectorStore.Entry>, entries: seq<VectorStore.Entry>,
                       files: seq<UploadedFile>, i: nat)
    requires i < |files|
    requires done == before + VectorStore.Stored(UploadBatches(files[..i]))
    requires entries == done + VectorStore.BatchEntries(UploadBatch(files[i]))
    ensures entries == before + VectorStore.Stored(UploadBatches(files[..i + 1]))
  {
    var prefix := files[..i + 1];
    assert prefix[..i] == files[..i] && prefix[i] == files[i];
    assert UploadBatches(prefix) == UploadBatches(files[..i]) + [UploadBatch(files[i])];
    VectorStore.StoredAppend(UploadBatches(files[..i]), UploadBatch(files[i]));
    AppendStep(before, VectorStore.Stored(UploadBatches(files[..i])), VectorStore.BatchEntries(UploadBatch(files[i])),
               VectorStore.Stored(UploadBatches(prefix)));
  }

  lemma UploadRecordsStep(copy: Copy, files: seq<UploadedFile>, i: nat)
    requires i < |files|
    ensures UploadRecords(copy, files[..i + 1]) == UploadRecords(copy, files[..i]) + [UploadRecord(copy, files[i])]
  {
    var prefix := files[..i + 1];
    assert prefix[..i] == files[..i] && prefix[i] == files[i];
  }

  lemma RebuildProgress(done: seq<VectorStore.Entry>, entries: seq<VectorStore.Entry>,
                        records: seq<DocumentRecord>, extract: string -> Result<string>, i: nat)
    requires i < |records|
    requires done == VectorStore.Stored(RebuildBatches(records[..i], extract))
    requires entries == done + VectorStore.BatchEntries(RebuildBatch(records[i], extract))
    ensures entries == VectorStore.Stored(RebuildBatches(records[..i + 1], extract))
  {
    var prefix := records[..i + 1];
    assert prefix[..i] == records[..i] && prefix[i] == records[i];
    assert RebuildBatches(prefix, extract) == RebuildBatches(records[..i], extract) + [RebuildBatch(records[i], extract)];
    VectorStore.StoredAppend(RebuildBatches(records[..i], extract), RebuildBatch(records[i], extract));
  }

  lemma RecountedStep(original: seq<DocumentRecord>, extract: string -> Result<string>, i: nat, records: seq<DocumentRecord>)
    requires i < |original|
    requires records == Recounted(original, extract, i)[i := original[i].(chunks := |Chunked(RebuildText(original[i], extract))|)]
    ensures records == Recounted(original, extract, i + 1)
  {
  }

  predicate AllDigits(s: string) {
    forall k :: 0 <= k < |s| ==> IsDigit(s[k])
  }

  /** A record id is never a digit string: it has a '-' after the clock digits. */
  lemma RecordIdNotDigits(clock: nat, random: nat, name: string)
    ensures !AllDigits(RecordId(clock, random, name))
  {
    assert RecordId(clock, random, name)[|NatToString(clock)|] == '-';
  }

  /** No uploaded batch is filed under a record id. */
  lemma {:induction false} UploadBatchesKept(files: seq<UploadedFile>, clock: nat, random: nat, name: string)
    ensures VectorStore.BatchesWithout(UploadBatches(files), RecordId(clock, random, name)) == UploadBatches(files)
    decreases |files|
  {
    if files != [] {
      var init, last := files[..|files| - 1], files[|files| - 1];
      UploadBatchesKept(init, clock, random, name);
      RecordIdNotDigits(clock, random, name);
      assert AllDigits(UploadBatch(last).docId);
      var batches := UploadBatches(files);
      assert batches[..|batches| - 1] == UploadBatches(init);
    }
  }

  /**
   * No cascade after upload: deleting an uploaded record by its id leaves every chunk an
   * upload stored, because those are filed under `Date.now()` and not under the record id.
   */
  lemma DeleteAfterUploadKeepsChunks(files: seq<UploadedFile>, clock: nat, random: nat, name: string)
    ensures var stored := VectorStore.Stored(UploadBatches(files));
      VectorStore.WithoutDocument(stored, RecordId(clock, random, name)) == stored
  {
    VectorStore.WithoutStored(UploadBatches(files), RecordId(clock, random, name));
    UploadBatchesKept(files, clock, random, name);
  }

  /** `records` without those whose id is `id`, in their order. */
  function OtherRecords(records: seq<DocumentRecord>, id: string): (r: seq<DocumentRecord>)
    ensures forall k :: 0 <= k < |r| ==> r[k].id != id
  {
    if records == [] then []
    else
      var init, last := records[..|records| - 1], records[|records| - 1];
      assert records == init + [last];
      OtherRecords(init, id) + (if last.id == id then [] else [last])
  }

  /** The batches of the other records are the batches a rebuild of the other records makes. */
  lemma {:induction false} RebuildOthers(records: seq<DocumentRecord>, extract: string -> Result<string>, id: string)
    ensures VectorStore.BatchesWithout(RebuildBatches(records, extract), id) == RebuildBatches(OtherRecords(records, id), extract)
    decreases |records|
  {
    if records != [] {
      var init, last := records[..|records| - 1], records[|records| - 1];
      RebuildOthers(init, extract, id);
      var batches := RebuildBatches(records, extract);
      assert batches[..|batches| - 1] == RebuildBatches(init, extract);
      var b := RebuildBatch(last, extract);
      var rest := OtherRecords(init, id);
      if last.id == id {
        assert VectorStore.BatchesWithout(batches, id) == VectorStore.BatchesWithout(RebuildBatches(init, extract), id) + [];
        assert OtherRecords(records, id) == rest + [];
        assert rest + [] == rest;
        assert VectorStore.BatchesWithout(RebuildBatches(init, extract), id) + [] == RebuildBatches(rest, extract);
      } else {
        assert VectorStore.BatchesWithout(batches, id) == VectorStore.BatchesWithout(RebuildBatches(init, extract), id) + [b];
        assert OtherRecords(records, id) == rest + [last];
        assert (rest + [last])[..|rest|] == rest;
        assert RebuildBatches(rest + [last], extract) == RebuildBatches(rest, extract) + [b];
      }
    }
  }

  /**
   * After a rebuild every chunk is filed under its record's id, so deleting record `id`
   * leaves exactly what rebuilding only the other records would have stored.
   */
  lemma DeleteAfterRebuild(records: seq<DocumentRecord>, extract: string -> Result<string>, id: string)
    ensures VectorStore.WithoutDocument(VectorStore.Stored(RebuildBatches(records, extract)), id) ==
      VectorStore.Stored(RebuildBatches(OtherRecords(records, id), extract))
  {
    VectorStore.WithoutStored(RebuildBatches(records, extract), id);
    RebuildOthers(records, extract, id);
  }
}
