# AI-Brain document assistant, modelled in Dafny

AI-Brain is a document question-answering server. Users upload files. The server cuts each
file's text into overlapping windows, turns every chunk into a 384-slot bucket-hash
embedding and keeps the chunks in a vector store. A chat request ranks the stored chunks
by similarity to the question. It then hands the best ones to a `DocumentAgent`, which
runs a fixed five-node state machine:

analyze → (search) → generate → validate → format

A language model and a search handler are called along the way. The agent's tone comes
from a table of personality profiles.

This project models the pure and sequential core of that system and proves what it
promises:

- `Strings`: the JavaScript string operations the core relies on: `trim`, `split(/\s+/)`,
  `toLowerCase` on A–Z, `join`, `includes` and `Date.now().toString()`.
- `Chunker`: `splitIntoChunks` of server/server.js and backend/server.js, as the while loop
  it is.
- `Embedder`: the bucket-accumulation loops of `generateEmbedding`, over a 384-slot array.
- `VectorStore`: the in-memory branch of the store, a class with the three parallel arrays
  `documents`, `embeddings` and `metadata`. It has append, filter-delete and clear, the
  stable top-k ranking of `searchSimilarChunks`, and the de-duplicated source list of the
  chat route.
- `Library`: the document records (`documentsMetadata`) and the upload, delete, clear and
  rebuild handlers, over the store. Which of the two server copies is meant is a parameter
  where they differ.
- `Personality`: the profile table of server/personality-config.js, with lookup, listing,
  custom profiles and system-prompt building.
- `Markdown`: the deterministic rewriting passes of `removeMarkdown` and `formatResponse`,
  and the `hasLists`/`hasSections`/`wordCount` tests.
- `Agent`: the agent's state, the per-channel merge of node updates, the five nodes, the
  router and the driver `processQuery`. The agent is a class whose settings change in
  place.

Environment inputs become parameters:

- the language model: `(system prompt, user message) -> Result<Reply>`;
- `JSON.parse` of the analysis: `string -> Result<Analysis>`;
- the search handler;
- the emphasis, link and image regex passes of `removeMarkdown`: `string -> string`;
- text extraction;
- the similarity function;
- `Date.now()` and `Math.random()`.

Confidence is kept in integer tenths (0.5 is 5).

## Model

| member | source | states |
|---|---|---|
| Strings.TrimShape | server/server.js:404 | `trim` keeps one substring, cuts only whitespace on either side, and leaves no whitespace at either end |
| Strings.TrimIdempotent | server/agent.js:412 | trimming twice is trimming once |
| Strings.Split | server/agent.js:382-383 | `split(/\s+/)` never returns an empty list, and no piece holds whitespace; Markdown.SplitJoin and Markdown.SplitUnique tie the pieces to the text |
| Strings.SplitLeadingSpace | server/server.js:415 | a text that starts with whitespace splits into an empty first word |
| Strings.IncludesWitness | server/agent.js:373-375 | when `includes` holds, the phrase occurs at some position |
| Strings.IncludesAt | server/agent.js:373-375 | a phrase occurring at any position is found by `includes` |
| Strings.NatToStringInjective | server/server.js:438 | different clock values give different `Date.now().toString()` ids |
| Chunker.SplitIntoChunks | server/server.js:397-409 | the loop returns the windows `Chunks(text, size, overlap)`; every chunk is trimmed and has more than 50 and at most `chunkSize` characters; the caller must ensure `overlap < chunkSize`, or the loop does not end; backend/server.js:374-386 is the same function |
| Chunker.CollectWindows | server/server.js:399-406 | the while loop pushes exactly the trimmed window at each start 0, s−o, 2(s−o), … below the text length |
| Chunker.WindowAt | backend/server.js:376-383 | window k exists exactly when its start lies inside the text, and it is the trimmed slice of `size` characters at that start |
| Chunker.WindowStartIs | server/server.js:404-405 | after k turns the start is k·(size − overlap) |
| Chunker.ChunksBounded | server/server.js:400-408 | the chunk length bounds, 50 < length ≤ size, and trimness, over the pure definition |
| Chunker.ChunkExamples | server/server.js:397-409 | empty text gives no chunk; 1200 copies of "A" give exactly two chunks, of 1000 and 400 characters |
| Embedder.BucketEmbedding | server/server.js:411-426 | the nested loops return the 384-slot accumulator of the text |
| Embedder.AddWord | backend/server.js:396-402 | one turn of the word loop adds word i's contributions to the array in place |
| Embedder.Bucket | server/server.js:423 | the bucket `(code·(i+1)·(j+1)) % 384` lies in [0, 384) |
| Embedder.AccumulatorSlot | server/server.js:415-426 | slot b of the embedding is the sum over words i of 1/(i+1) for each character that hashes to b |
| Embedder.BlankTextIsZero | backend/server.js:392-407 | empty or all-whitespace text gives the zero vector |
| Embedder.LeadingSpaceEmptyFirstWord | server/server.js:415 | leading whitespace makes word 0 empty |
| VectorStore.InMemoryStore.constructor | server/server.js:61-65 | the store starts with three empty aligned arrays |
| VectorStore.InMemoryStore.StoreDocumentChunks | server/server.js:437-467 | the store gains, in order, one aligned entry per chunk; entry i holds the chunk text, its embedding, and metadata with the document id `documentId` (or `Date.now()` when that is falsy), the name and chunkIndex i; backend/server.js:414-444 is the same loop |
| VectorStore.InMemoryStore.DeleteDocument | server/server.js:226-232 | the three arrays keep exactly the positions whose old metadata has another document id, in their order, and stay aligned |
| VectorStore.InMemoryStore.Clear | server/server.js:264-266 | all three arrays become empty |
| VectorStore.DocId | backend/server.js:415 | the id is `documentId` when it is non-empty, otherwise `Date.now().toString()` |
| VectorStore.NewEntriesAt | backend/server.js:417-441 | entry i of a batch carries chunk i, chunkIndex i, the batch's document id and name, and a 384-slot embedding |
| VectorStore.ChunkIdInjective | server/server.js:443 | the ids `<docId>-chunk-<i>` of one batch are all different |
| VectorStore.WithoutDocumentMembers | backend/server.js:226-232 | an entry survives a delete exactly when it was stored and its document id differs |
| VectorStore.WithoutDocumentAppend | server/server.js:226-232 | delete distributes over concatenation, so it keeps the relative order |
| VectorStore.WithoutBatch | server/server.js:226-232 | deleting an id removes a whole batch stored under that id and leaves any other batch untouched |
| VectorStore.WithoutDocumentIdempotent | server/server.js:226-232 | deleting the same id twice is deleting it once |
| VectorStore.WithoutStored | backend/server.js:226-232 | deleting from a run of stores is storing only the batches with other ids |
| VectorStore.SortPermutes | server/server.js:493 | the sort is a permutation of the scores |
| VectorStore.SortRanked | backend/server.js:470 | the stable sort with comparator `b.similarity - a.similarity` puts the scores in non-increasing order, ties in store order |
| VectorStore.SortedScores | server/server.js:488-493 | every sorted score is the similarity of the query and the embedding at its own stored position |
| VectorStore.Top | server/server.js:495 | the top-k has min(topK, n) positions, each a stored position |
| VectorStore.TopRanked | backend/server.js:461-476 | the top-k is ranked, its scores are the similarities of their positions, and no position repeats |
| VectorStore.LeftOutRanksBelow | server/server.js:488-495 | every position left out of the top-k ranks below every one kept |
| VectorStore.SearchShape | server/server.js:469-501 | an empty store gives []; otherwise the search gives min(topK, n) hits with non-increasing similarity, each hit's text and source taken from one stored position; backend/server.js:446-478 is the same search |
| VectorStore.DistinctIsSet | server/server.js:322-324 | the chat sources hold each result source exactly once, in first-seen order |
| Library.Server.constructor | server/server.js:61-82 | the server starts with an empty store and no records |
| Library.Server.Upload | server/server.js:149-208 | no files gives "No files uploaded"; otherwise the files are stored and recorded in order up to the first failed extraction; the request succeeds exactly when every file was extracted; the failure message names the file; in the backend copy (backend/server.js:158-199) records keep the file path and the failure is the bare extraction error |
| Library.Server.UploadFile | server/server.js:170-188 | one file adds its chunk batch to the store and one record with its chunk count |
| Library.Server.DeleteRecord | server/server.js:212-242 | an unknown id gives "Document not found" and changes nothing; otherwise the store drops exactly that id's entries and the first record with that id is spliced out |
| Library.Server.ClearAll | backend/server.js:245-275 | the store and the record list become empty |
| Library.Server.RebuildRecord | backend/server.js:295-298 | one record is re-stored under its own id, and its chunk count is reset to the new count |
| Library.Server.Rebuild | backend/server.js:278-305 | the store is cleared, then the records are re-stored under their own ids and recounted, in order, up to the first failed extraction; success exactly when every record was rebuilt; in the server copy (server/server.js:278-305) records have no path, so the first extraction fails |
| Library.FindRecord | server/server.js:215 | `findIndex` gives the first record with the id, or none when no record has it |
| Library.RecordIdNotDigits | server/server.js:178 | a record id is never a `Date.now()` string |
| Library.DeleteAfterUploadKeepsChunks | server/server.js:178-187 | deleting an uploaded record's id removes none of the chunks uploads stored, so there is no delete cascade for uploads |
| Library.DeleteAfterRebuild | backend/server.js:226-232 | after a rebuild, deleting a record's id removes exactly that record's chunks |
| Personality.KeyIndex | server/personality-config.js:240-242 | the key's position in the table, or none when the key is not in the table |
| Personality.KeysDistinct | server/personality-config.js:6-235 | the five table keys are distinct |
| Personality.GetPersonalityKnown | server/personality-config.js:240-242 | every table key looks up its own profile |
| Personality.GetPersonalityUnknown | server/personality-config.js:240-242 | any other key, and no argument, give the government_professional profile |
| Personality.GetAllPersonalities | server/personality-config.js:247-254 | one summary per table key, five in all |
| Personality.ListingAgreesWithLookup | server/personality-config.js:247-254 | summary i has id key i, and the name, description and tone markers of that key's profile |
| Personality.OrElse | server/personality-config.js:261-262 | `value \|\| fallback` on strings: a present non-empty value, otherwise the fallback |
| Personality.CreateCustomPersonality | server/personality-config.js:259-267 | name and description fall back to fixed defaults when falsy; analysisPrompt and toneMarkers fall back to the custom profile's; systemPrompt is copied |
| Personality.EmptyCustomPersonality | server/personality-config.js:259-267 | an empty configuration gives the default custom profile |
| Personality.BuildSystemPrompt | server/personality-config.js:272-280 | the prompt starts with the system prompt, and it is exactly the system prompt when the instructions are empty |
| Personality.InstructionsRoundTrip | server/personality-config.js:275-277 | the instructions can be read back from the built prompt |
| Markdown.DropBackticks | server/agent.js:484 | no backtick is left, and nothing new is added |
| Markdown.CollapseSpace | server/agent.js:487 | whitespace is left only as single plain spaces, every other character comes from the input, and a leading space stays exactly when there was one |
| Markdown.RemoveMarkdown | server/agent.js:448-493 | the successive passes give the cleaned text, which is trimmed and has no backtick, no line break and no two adjacent whitespace characters |
| Markdown.CleanTextIsClean | server/agent.js:484-492 | every cleaned text is trimmed, backtick-free and single-spaced |
| Markdown.CleanTextOfClean | server/agent.js:484-492 | cleaning a clean text changes nothing |
| Markdown.ParagraphBreaksWithoutNewline | server/agent.js:490 | the paragraph pass does nothing on a text with no line break, as every text reaching it is |
| Markdown.CollapseNewlinesWithoutNewline | server/agent.js:418 | the `\n{3,}` pass does nothing on a text with no line break, as every cleaned text is |
| Markdown.SpaceAfterStops | server/agent.js:421 | afterwards no `.`, `!` or `?` is directly followed by a capital A–Z; the first and last characters are kept |
| Markdown.SpaceAfterStopsKeepsClean | server/agent.js:421 | the stop pass keeps a clean text clean |
| Markdown.SpaceAfterStopsIdempotent | server/agent.js:421 | the stop pass applied twice is applied once |
| Markdown.FormatAnswer | server/agent.js:408-421 | the formatted answer is clean, has no line break and has a space after every stop before a capital |
| Markdown.SplitJoin | server/agent.js:382-383 | the pieces of `split(/\s+/)`, joined by single spaces, are the text with every whitespace run collapsed to one space (`replace(/\s+/g, ' ')`) |
| Markdown.SplitUnique | server/server.js:414 | the split is the only whitespace-free list of pieces whose space-joined text is the collapsed text, so its pieces are exactly the text's whitespace-separated runs, with the empty ends |
| Markdown.WordCount | server/agent.js:426 | the word count is at least 1, even for an empty answer |
| Markdown.BulletMissedAsWritten | server/agent.js:424 | with the marker class as written, a line "• item" is not seen as a list |
| Markdown.BulletDetected | server/agent.js:424 | with the intended marker class, "• item" is a list |
| Agent.MergeMetadata | server/agent.js:100-103 | merged metadata is the union of the keys, the update winning on shared keys |
| Agent.MergeNothing | server/agent.js:76-107 | an update that sets nothing leaves the state as it was, since every scalar channel keeps the old value when the update is missing |
| Agent.MergeSpread | server/agent.js:72-75 | a node's `{...state}` update keeps every field but doubles the message log |
| Agent.JsonSpan | server/agent.js:209-210 | the greedy match runs from the first `{` of the reply to its last `}`, and there is none exactly when no `{` comes before a `}` |
| Agent.AnalyzeThrows | server/agent.js:233-244 | when the model call fails, analysis becomes the default analysis and nothing else changes |
| Agent.AnalyzeWithoutJson | server/agent.js:209-232 | with no JSON in the reply, analysis is the default and the reply and its token count are recorded |
| Agent.AnalyzeParsed | server/agent.js:213-244 | with a JSON span, analysis is what the parser gives, or the default when the parser throws |
| Agent.ShouldSearch | server/agent.js:250-262 | search exactly when there are no results yet, the analysis asks for a search and a handler is set; direct otherwise |
| Agent.SearchWithoutHandler | server/agent.js:270-272 | with no handler, search leaves the state unchanged |
| Agent.SearchQueryCases | server/agent.js:275-276 | the query is the search terms joined by spaces, the user query when there are no terms, and "" for an empty list |
| Agent.SearchOutcome | server/agent.js:274-292 | the results and sources are the handler's, missing ones as [], and both are [] when the handler fails; nothing else changes |
| Agent.ContextTextEmpty | server/agent.js:301-305 | the joined context is empty exactly when there are no results |
| Agent.GenerationPromptBranch | server/agent.js:305-317 | the grounded instructions and the context block are used exactly when there are results, otherwise the general-guidance ones |
| Agent.GenerateTokens | server/agent.js:325-337 | a text reply becomes the answer and is appended to the messages; responseTokens is its count; totalTokens is the analysis tokens (0 when missing) plus that count |
| Agent.GenerateThrows | server/agent.js:338-345 | a failed call sets the fixed fallback answer and the error message, and nothing else |
| Agent.GenerateResponse | server/agent.js:298-346 | generate changes only the answer, messages, metadata and error, and it fails only with the error a non-text answer raises |
| Agent.Clamp | server/agent.js:392 | the confidence is in [0, 10] tenths and is unchanged when already there |
| Agent.HasUncertainty | server/agent.js:367-375 | the loop finds a phrase exactly when one of the eight uncertainty phrases occurs in the lower-cased answer |
| Agent.ValidateOutput | server/agent.js:351-403 | the step-by-step confidence equals the score formula, and the validated and uncertaintyDetected flags are set |
| Agent.ScoreRange | server/agent.js:354-392 | the confidence always lies between 0.3 and 0.9, so the clamp never acts |
| Agent.ScoreWithSources | server/agent.js:357-359 | having sources adds exactly 0.2 |
| Agent.ShortAnswerScore | server/agent.js:354-392 | with no sources, the answer "short" scores 0.5, or 0.6 when more than two query words overlap |
| Agent.FormatResponse | server/agent.js:408-443 | the answer is replaced by its formatted form, which is clean and has spaced stops, and the formatting facts are recorded; hasLists uses the corrected marker class (see Left out and Findings) |
| Agent.VisitedOrder | server/agent.js:119-134 | a run visits nodes in graph order, each at most once: analyze, generate and validate always, search exactly when routed there, format exactly when nothing threw |
| Agent.RunTrace | server/agent.js:119-134 | every run's trace is the graph path of the route taken, ending at format exactly when it succeeded |
| Agent.RunSkipsSearch | server/agent.js:250-262 | results passed in by the caller, or no handler, skip the search node |
| Agent.Prepare | server/agent.js:144-156 | the initial state from the query and context, analyze, and search when routed there |
| Agent.Complete | server/agent.js:156 | generate, validate and format from the prepared state |
| Agent.CompletedFails | server/agent.js:166-174 | the run fails exactly when the model's answer is not text |
| Agent.RunFailure | server/agent.js:166-174 | a failed run answers with the fixed apology, no sources, confidence 0 and the error message |
| Agent.RunSuccess | server/agent.js:158-165 | a successful answer is clean with spaced stops; its sources are those the generate node saw; confidence lies in 0.3..0.9; the validated and formatting keys are set; tokenCount is totalTokens or 0 |
| Agent.DocumentAgent.constructor | server/agent.js:32-47 | temperature 0.7, 1500 tokens and government_professional are the `\|\|` defaults; the profile is looked up; no search handler is set |
| Agent.DocumentAgent.SetPersonality | server/agent.js:52-57 | the type, the instructions and the looked-up profile change, the handler does not |
| Agent.DocumentAgent.SetSearchHandler | server/agent.js:62-64 | the handler is set, the personality settings do not change |
| Agent.DocumentAgent.ProcessQuery | server/agent.js:142-175 | the response and the nodes visited are those of one run of the graph with the agent's current settings |

## Left out

- HTTP layer: routes, request parsing, status codes, multer storage, static files and startup are not modelled. The handlers are modelled as methods.
  - The route-wiring defects are outside the model: DELETE `/api/documents/clear` is registered after `/:id`, and the client calls a DELETE `/documents` that has no handler.
- ChromaDB: only the in-memory branches of the vector store are modelled. The external collection is a foreign service.
- Text extraction (pdf-parse, mammoth, file reads) is a parameter. Each file's extraction result is given with the upload, and the rebuild takes a function from path to result.
- Delete and clear do not model the file unlinking, whose errors are swallowed: the backend copy's delete unlinks the document's file (backend/server.js:215-219), and both copies' clear unlink every file (server/server.js:248-254, backend/server.js:248-254). The store and the records are modelled; the files on disk are not.
- Neither model records `uploadedAt`.
- The language model (ChatGroq) and the LangGraph runtime are replaced by an oracle and a fixed sequential driver. Temperature and maxTokens are only stored.
- `JSON.parse` of the analysis is an oracle. A parsed `searchTerms` that is not an array is not modelled.
- Floating point is left out in three places:
  - cosine similarity is an abstract function on vectors;
  - the embedding is stored as the bucket accumulator before its scaling to unit length;
  - the confidence is reckoned exactly in tenths, where JavaScript's `0.5 + 0.2 + 0.1` is not exactly 0.8.
- `endTime` and `processingTime` (clock readings) are not put into the metadata. `startTime` and the ids' clock and random values are parameters.
- The emphasis, header, link, image and list regex passes of `removeMarkdown` (server/agent.js:452-481) are one oracle `markup`. The deterministic final passes are modelled.
- `Strings.ToLower` folds only A–Z. Strings are sequences of UTF-16 code units, and characters outside the basic plane are not modelled.
- `Chunker.SplitIntoChunks`: the source has no guard for `overlap >= chunkSize`, where its loop never ends. The model requires `overlap < chunkSize` instead of raising an error.
- Agent.FormatResponse: the recorded `formatting.hasLists` uses the corrected marker class `-•*` (Markdown.HasLists), not the class as written at server/agent.js:424. An answer with a line "• item" is recorded as having lists, where the source records false. Markdown.HasListsAsWritten and Markdown.BulletMissedAsWritten model the class as written.
- Agent.Complete: the format step inside it records hasLists with the corrected marker class, as Agent.FormatResponse does.
- Agent.DocumentAgent.ProcessQuery: the response metadata's hasLists comes from the corrected marker class, as Agent.FormatResponse describes; everything else is as written.
- `Agent.GenerateResponse`: a model reply whose content is not text is reported as the failure of the run. The source stores it and then throws in `validateOutput`; the response envelope is the same.
- A `userQuery` that is not a string is not modelled.
- `getPersonality` on inherited object keys such as `constructor` is not modelled. Only own table keys and other strings are.
- The store does not keep the `<docId>-chunk-<i>` ids. In the in-memory branch they are only passed to the external collection. `VectorStore.ChunkIdInjective` states their uniqueness.
- `Library.Chunked`: a failed extraction has no chunks, since the route stops before storing them.
- The messages reducer concatenates, and every node returns `{...state}`, so each node doubles the message log. This is modelled as written (`Agent.MergeSpread`) and is not reported as a defect.

## Findings

| source | as written | input that shows it | evidently intended | confidence | as-written member | corrected member |
|---|---|---|---|---|---|---|
| server/agent.js:424 | the list-marker class `[-â€¢*]` is the UTF-8 bytes of `•` read as three characters, so it holds `-`, `â`, `€`, `¢` and `*` | the formatted answer "• item" gives `hasLists` false | a bullet `•` at the start of a line marks a list | not executed | Markdown.BulletMissedAsWritten | Markdown.BulletDetected |
