/**
 * `ImportFilesUseCase`: re-imports a set of files into the vector store.
 * The store is cleared first; every document of every file is chunked, each
 * chunk becomes one record whose document slot holds the whole parent text,
 * all chunks are embedded in one batch and stored in one batch.
 */
module ImportFilesUseCase {
  import opened Wrappers
  import opened Domain

  /** One stored record: id, embedding, document text and metadata. */
  datatype Record = Record(id: string, embedding: Embedding, document: string, metadata: Metadata)

  /**
   * The collaborators: the document loader, the chunker and the embedding
   * service, each returning its result or what it raised, and the source of
   * fresh ids (`str(uuid.uuid4())` for the `k`-th record of a batch).
   */
  datatype Ingestion = Ingestion(
    load: string -> Result<seq<Document>, Error>,
    chunkText: string -> Result<seq<string>, Error>,
    embedTexts: seq<string> -> Result<seq<Embedding>, Error>,
    newId: nat -> string)

  /** A call made to a collaborator or to the store. */
  datatype Event =
    | DeleteAllCall
    | LoadCall(path: string)
    | ChunkCall(text: string)
    | EmbedCall(texts: seq<string>)
    | AddCall(count: nat)

  const NoPaths: string := "At least one file path must be provided."

  const MismatchedBatch: string := "ids, embeddings, documents and metadatas must have the same length"

  /** Records built from four parallel lists. */
  function Zip(ids: seq<string>, embeddings: seq<Embedding>, documents: seq<string>, metadatas: seq<Metadata>): (rs: seq<Record>)
    requires |embeddings| == |ids| && |documents| == |ids| && |metadatas| == |ids|
    ensures |rs| == |ids|
    ensures forall k :: 0 <= k < |rs| ==> rs[k] == Record(ids[k], embeddings[k], documents[k], metadatas[k])
  {
    seq(|ids|, k requires 0 <= k < |ids| => Record(ids[k], embeddings[k], documents[k], metadatas[k]))
  }

  /**
   * The vector store, as the use case sees it: `delete_all` empties it and
   * `add_documents` appends one record per id when the four lists agree in
   * length, and refuses the batch otherwise.
   */
  class VectorStore {
    var records: seq<Record>

    constructor ()
      ensures records == []
    {
      records := [];
    }

    method DeleteAll()
      modifies this
      ensures records == []
    {
      records := [];
    }

    method AddDocuments(ids: seq<string>, embeddings: seq<Embedding>, documents: seq<string>, metadatas: seq<Metadata>)
      returns (r: Result<(), Error>)
      modifies this
      ensures r.Success? <==> |embeddings| == |ids| && |documents| == |ids| && |metadatas| == |ids|
      ensures r.Success? ==> records == old(records) + Zip(ids, embeddings, documents, metadatas)
      ensures r.Failure? ==> records == old(records) && r == Failure(ValueError(MismatchedBatch))
    {
      if |embeddings| == |ids| && |documents| == |ids| && |metadatas| == |ids| {
        records := records + Zip(ids, embeddings, documents, metadatas);
        return Success(());
      }
      return Failure(ValueError(MismatchedBatch));
    }
  }

  // ---------------------------------------------------------------------
  // The batch the nested loops assemble
  // ---------------------------------------------------------------------

  /** One chunk of the batch: its text, its parent's text, its source and its position in its parent. */
  datatype Entry = Entry(chunk: string, document: string, source: MetaValue, chunkIndex: nat)

  /** `doc.metadata.get("source", path)`. */
  function SourceOf(doc: Document, path: string): MetaValue
  {
    if "source" in doc.metadata then doc.metadata["source"] else Str(path)
  }

  /** The metadata stored with a chunk. */
  function MetadataOf(e: Entry): Metadata
  {
    map["source" := e.source, "chunk_index" := Int(e.chunkIndex)]
  }

  /**
   * The entries of one document: one per chunk, in chunk order, numbered
   * from 0, each holding the whole parent text and the parent's source.
   */
  function DocEntries(doc: Document, path: string, chunks: seq<string>): (es: seq<Entry>)
    ensures |es| == |chunks|
    ensures forall i :: 0 <= i < |es| ==>
      es[i].chunk == chunks[i] && es[i].document == doc.pageContent &&
      es[i].source == SourceOf(doc, path) && es[i].chunkIndex == i
  {
    seq(|chunks|, i requires 0 <= i < |chunks| => Entry(chunks[i], doc.pageContent, SourceOf(doc, path), i))
  }

  function Chunks(es: seq<Entry>): (texts: seq<string>)
    ensures |texts| == |es| && forall k :: 0 <= k < |es| ==> texts[k] == es[k].chunk
  {
    seq(|es|, k requires 0 <= k < |es| => es[k].chunk)
  }

  function Documents(es: seq<Entry>): (docs: seq<string>)
    ensures |docs| == |es| && forall k :: 0 <= k < |es| ==> docs[k] == es[k].document
  {
    seq(|es|, k requires 0 <= k < |es| => es[k].document)
  }

  function Metadatas(es: seq<Entry>): (metas: seq<Metadata>)
    ensures |metas| == |es| && forall k :: 0 <= k < |es| ==> metas[k] == MetadataOf(es[k])
  {
    seq(|es|, k requires 0 <= k < |es| => MetadataOf(es[k]))
  }

  /** The three parallel lists `all_chunks`, `all_metadatas` and `all_documents`. */
  datatype Batch = Batch(chunks: seq<string>, metadatas: seq<Metadata>, documents: seq<string>)

  /** The lists that hold the entries, position by position. */
  function BatchOf(es: seq<Entry>): (b: Batch)
    ensures |b.chunks| == |b.metadatas| == |b.documents| == |es|
  {
    Batch(Chunks(es), Metadatas(es), Documents(es))
  }

  /** What the loops have gathered so far, with the calls they made. */
  datatype Gathered = Gathered(result: Result<seq<Entry>, Error>, calls: seq<Event>)

  /** The inner loop over the documents of one file. */
  function GatherDocs(path: string, docs: seq<Document>, deps: Ingestion): Gathered
  {
    if docs == [] then Gathered(Success([]), [])
    else
      var prior := GatherDocs(path, docs[..|docs| - 1], deps);
      match prior.result
      case Failure(_) => prior
      case Success(es) =>
        var doc := docs[|docs| - 1];
        var calls := prior.calls + [ChunkCall(doc.pageContent)];
        match deps.chunkText(doc.pageContent)
        case Failure(e) => Gathered(Failure(e), calls)
        case Success(chunks) => Gathered(Success(es + DocEntries(doc, path, chunks)), calls)
  }

  /** The outer loop over the file paths. */
  function GatherPaths(paths: seq<string>, deps: Ingestion): Gathered
  {
    if paths == [] then Gathered(Success([]), [])
    else
      var prior := GatherPaths(paths[..|paths| - 1], deps);
      match prior.result
      case Failure(_) => prior
      case Success(es) =>
        var path := paths[|paths| - 1];
        var calls := prior.calls + [LoadCall(path)];
        match deps.load(path)
        case Failure(e) => Gathered(Failure(e), calls)
        case Success(docs) =>
          var inner := GatherDocs(path, docs, deps);
          match inner.result
          case Failure(e) => Gathered(Failure(e), calls + inner.calls)
          case Success(more) => Gathered(Success(es + more), calls + inner.calls)
  }

  /** What one file contributes to the gathering: its load, then the loop over its documents. */
  function GatherFile(path: string, deps: Ingestion): (g: Gathered)
    ensures |g.calls| >= 1 && g.calls[0] == LoadCall(path)
  {
    match deps.load(path)
    case Failure(e) => Gathered(Failure(e), [LoadCall(path)])
    case Success(docs) =>
      var inner := GatherDocs(path, docs, deps);
      Gathered(inner.result, [LoadCall(path)] + inner.calls)
  }

  /** One more path extends the gathering by what that one file contributes. */
  lemma GatherPathsStep(paths: seq<string>, p: nat, deps: Ingestion)
    requires p < |paths| && GatherPaths(paths[..p], deps).result.Success?
    ensures var prior := GatherPaths(paths[..p], deps);
      var f := GatherFile(paths[p], deps);
      GatherPaths(paths[..p + 1], deps) ==
        Gathered(if f.result.Success? then Success(prior.result.value + f.result.value) else f.result,
                 prior.calls + f.calls)
  {
    assert paths[..p + 1][..p] == paths[..p];
    var prior := GatherPaths(paths[..p], deps);
    var path := paths[p];
    if deps.load(path).Success? {
      var inner := GatherDocs(path, deps.load(path).value, deps);
      assert prior.calls + [LoadCall(path)] + inner.calls == prior.calls + ([LoadCall(path)] + inner.calls);
    }
  }

  /** Once a file fails to load or chunk, no later file is looked at. */
  lemma {:induction false} GatherPathsStops(paths: seq<string>, k: nat, deps: Ingestion)
    requires k <= |paths| && GatherPaths(paths[..k], deps).result.Failure?
    ensures GatherPaths(paths, deps) == GatherPaths(paths[..k], deps)
    decreases |paths| - k
  {
    if k < |paths| {
      var pre := paths[..|paths| - 1];
      assert pre[..k] == paths[..k];
      GatherPathsStops(pre, k, deps);
    } else {
      assert paths[..k] == paths;
    }
  }

  /** Once a document fails to chunk, no later document of the file is looked at. */
  lemma {:induction false} GatherDocsStops(path: string, docs: seq<Document>, k: nat, deps: Ingestion)
    requires k <= |docs| && GatherDocs(path, docs[..k], deps).result.Failure?
    ensures GatherDocs(path, docs, deps) == GatherDocs(path, docs[..k], deps)
    decreases |docs| - k
  {
    if k < |docs| {
      var pre := docs[..|docs| - 1];
      assert pre[..k] == docs[..k];
      GatherDocsStops(path, pre, k, deps);
    } else {
      assert docs[..k] == docs;
    }
  }

  /** The fresh ids of a batch of `n` records. */
  function NewIds(n: nat, deps: Ingestion): (ids: seq<string>)
    ensures |ids| == n
  {
    seq(n, k requires 0 <= k < n => deps.newId(k))
  }

  /** The outcome of an import: its result, the calls made in order, and the records stored afterwards. */
  datatype Outcome = Outcome(result: Result<(), Error>, calls: seq<Event>, records: seq<Record>)

  /** `_persist_to_vector_store` on an empty store. */
  function Persist(es: seq<Entry>, embeddings: seq<Embedding>, deps: Ingestion): (rs: Result<seq<Record>, Error>)
  {
    if |embeddings| == |es| then Success(Zip(NewIds(|es|, deps), embeddings, Documents(es), Metadatas(es)))
    else Failure(ValueError(MismatchedBatch))
  }

  /** `invoke(file_paths)` on a store holding `before`. */
  function Import(paths: seq<string>, deps: Ingestion, before: seq<Record>): Outcome
  {
    if paths == [] then Outcome(Failure(ValueError(NoPaths)), [], before)
    else
      var gathered := GatherPaths(paths, deps);
      var calls := [DeleteAllCall] + gathered.calls;
      match gathered.result
      case Failure(e) => Outcome(Failure(e), calls, [])
      case Success(es) =>
        var stored := EmbedAndStore(es, deps);
        Outcome(stored.result, calls + stored.calls, stored.records)
  }

  /** The end of `invoke`, on the emptied store: one batched embedding, then one batched add. */
  function EmbedAndStore(es: seq<Entry>, deps: Ingestion): Outcome
  {
    var embedCalls := [EmbedCall(Chunks(es))];
    match deps.embedTexts(Chunks(es))
    case Failure(e) => Outcome(Failure(e), embedCalls, [])
    case Success(embeddings) =>
      var addCalls := embedCalls + [AddCall(|es|)];
      match Persist(es, embeddings, deps)
      case Failure(e) => Outcome(Failure(e), addCalls, [])
      case Success(rs) => Outcome(Success(()), addCalls, rs)
  }

  // ---------------------------------------------------------------------
  // The use case
  // ---------------------------------------------------------------------

  class ImportFiles {
    const deps: Ingestion
    const store: VectorStore

    constructor (deps: Ingestion, store: VectorStore)
      ensures this.deps == deps && this.store == store
    {
      this.deps := deps;
      this.store := store;
    }

    /** `invoke(file_paths)`; `calls` records the calls made. */
    method Invoke(filePaths: seq<string>) returns (r: Result<(), Error>, ghost calls: seq<Event>)
      modifies store
      ensures var o := Import(filePaths, deps, old(store.records));
        r == o.result && calls == o.calls && store.records == o.records
    {
      calls := [];
      if filePaths == [] {
        return Failure(ValueError(NoPaths)), calls;
      }
      store.DeleteAll();
      calls := calls + [DeleteAllCall];
      var batch := Batch([], [], []);
      ghost var entries: seq<Entry> := [];
      for p := 0 to |filePaths|
        invariant |calls| >= 1 && calls[0] == DeleteAllCall
        invariant GatherPaths(filePaths[..p], deps) == Gathered(Success(entries), calls[1..])
        invariant batch == BatchOf(entries)
        invariant store.records == []
      {
        var added, more, fileCalls := AddFile(filePaths[p], batch, entries);
        GatherPathsStep(filePaths, p, deps);
        assert calls[1..] + fileCalls == (calls + fileCalls)[1..];
        calls := calls + fileCalls;
        if added.Failure? {
          GatherPathsStops(filePaths, p + 1, deps);
          return Failure(added.error), calls;
        }
        batch := added.value;
        entries := entries + more;
      }
      assert filePaths[..|filePaths|] == filePaths;
      assert calls == [DeleteAllCall] + GatherPaths(filePaths, deps).calls;
      ghost var storeCalls;
      r, storeCalls := EmbedAndPersist(batch, entries);
      calls := calls + storeCalls;
    }

    /** Lines 79-87 of `invoke`: embed every chunk in one call, then persist the batch. */
    method EmbedAndPersist(batch: Batch, ghost entries: seq<Entry>) returns (r: Result<(), Error>, ghost calls: seq<Event>)
      requires batch == BatchOf(entries) && store.records == []
      modifies store
      ensures Outcome(r, calls, store.records) == EmbedAndStore(entries, deps)
    {
      calls := [EmbedCall(batch.chunks)];
      var embeddings := deps.embedTexts(batch.chunks);
      if embeddings.Failure? {
        return Failure(embeddings.error), calls;
      }
      calls := calls + [AddCall(|batch.chunks|)];
      r := PersistToVectorStore(batch.documents, batch.chunks, embeddings.value, batch.metadatas);
      if r.Success? {
        assert r.value == ();
        assert [] + Zip(NewIds(|entries|, deps), embeddings.value, batch.documents, batch.metadatas)
          == Zip(NewIds(|entries|, deps), embeddings.value, Documents(entries), Metadatas(entries));
      }
    }

    /** One pass of the loop over the paths: load the file, then chunk its documents. */
    method AddFile(path: string, batch: Batch, ghost entries: seq<Entry>)
      returns (r: Result<Batch, Error>, ghost more: seq<Entry>, ghost calls: seq<Event>)
      requires batch == BatchOf(entries)
      ensures GatherFile(path, deps) == Gathered(if r.Success? then Success(more) else Failure(r.error), calls)
      ensures r.Success? ==> r.value == BatchOf(entries + more)
    {
      calls := [LoadCall(path)];
      var documents := deps.load(path);
      if documents.Failure? {
        return Failure(documents.error), [], calls;
      }
      ghost var docCalls;
      r, more, docCalls := AddFileDocuments(path, documents.value, batch, entries);
      calls := calls + docCalls;
    }

    /**
     * The loop over the documents of one file: chunk each document and append
     * its entries to the batch, or stop at the first chunker failure.
     */
    method AddFileDocuments(path: string, documents: seq<Document>, batch: Batch, ghost entries: seq<Entry>)
      returns (r: Result<Batch, Error>, ghost more: seq<Entry>, ghost calls: seq<Event>)
      requires batch == BatchOf(entries)
      ensures calls == GatherDocs(path, documents, deps).calls
      ensures r.Failure? ==> GatherDocs(path, documents, deps).result == Failure(r.error)
      ensures r.Success? ==> GatherDocs(path, documents, deps).result == Success(more) && r.value == BatchOf(entries + more)
    {
      var current := batch;
      more := [];
      calls := [];
      for d := 0 to |documents|
        invariant GatherDocs(path, documents[..d], deps) == Gathered(Success(more), calls)
        invariant current == BatchOf(entries + more)
      {
        assert documents[..d + 1][..d] == documents[..d];
        var doc := documents[d];
        calls := calls + [ChunkCall(doc.pageContent)];
        var chunks := deps.chunkText(doc.pageContent);
        if chunks.Failure? {
          GatherDocsStops(path, documents, d + 1, deps);
          return Failure(chunks.error), more, calls;
        }
        current := AddChunks(path, doc, chunks.value, current, entries + more);
        assert entries + more + DocEntries(doc, path, chunks.value) == entries + (more + DocEntries(doc, path, chunks.value));
        more := more + DocEntries(doc, path, chunks.value);
      }
      assert documents[..|documents|] == documents;
      return Success(current), more, calls;
    }

    /** The loop over the chunks of one document: one entry per chunk, numbered from 0. */
    method AddChunks(path: string, doc: Document, chunks: seq<string>, batch: Batch, ghost entries: seq<Entry>)
      returns (extended: Batch)
      requires batch == BatchOf(entries)
      ensures extended == BatchOf(entries + DocEntries(doc, path, chunks))
    {
      extended := batch;
      for i := 0 to |chunks|
        invariant extended == BatchOf(entries + DocEntries(doc, path, chunks[..i]))
      {
        ghost var before := entries + DocEntries(doc, path, chunks[..i]);
        var entry := Entry(chunks[i], doc.pageContent, SourceOf(doc, path), i);
        assert entries + DocEntries(doc, path, chunks[..i + 1]) == before + [entry];
        extended := Batch(
          extended.chunks + [chunks[i]],
          extended.metadatas + [map["source" := SourceOf(doc, path), "chunk_index" := Int(i)]],
          extended.documents + [doc.pageContent]);
        assert extended.chunks == Chunks(before + [entry]);
        assert extended.metadatas == Metadatas(before + [entry]);
        assert extended.documents == Documents(before + [entry]);
      }
      assert chunks[..|chunks|] == chunks;
    }

    /** `_persist_to_vector_store`: one fresh id per chunk text, then one batched add. */
    method PersistToVectorStore(documents: seq<string>, texts: seq<string>, embeddings: seq<Embedding>, metadatas: seq<Metadata>)
      returns (r: Result<(), Error>)
      modifies store
      ensures var ids := NewIds(|texts|, deps);
        (r.Success? <==> |embeddings| == |ids| && |documents| == |ids| && |metadatas| == |ids|) &&
        (r.Success? ==> store.records == old(store.records) + Zip(ids, embeddings, documents, metadatas)) &&
        (r.Failure? ==> store.records == old(store.records) && r == Failure(ValueError(MismatchedBatch)))
    {
      var ids := NewIds(|texts|, deps);
      r := store.AddDocuments(ids, embeddings, documents, metadatas);
    }
  }

  // ---------------------------------------------------------------------
  // Properties of the batch
  // ---------------------------------------------------------------------

  /** Entry `e` is the `chunkIndex`-th chunk the chunker makes of its stored parent text. */
  predicate IsChunkOfDocument(e: Entry, deps: Ingestion)
  {
    var chunks := deps.chunkText(e.document);
    chunks.Success? && e.chunkIndex < |chunks.value| && chunks.value[e.chunkIndex] == e.chunk
  }

  /** Entry `e` is the last chunk the chunker makes of its stored parent text. */
  predicate EndsDocument(e: Entry, deps: Ingestion)
  {
    var chunks := deps.chunkText(e.document);
    chunks.Success? && e.chunkIndex + 1 == |chunks.value|
  }

  /**
   * Every entry is a chunk of its parent. The entries of each document form
   * one complete run: indices 0, 1, ... up to the parent's last chunk, so a
   * document's numbering never restarts or stops part-way.
   */
  predicate WellNumbered(es: seq<Entry>, deps: Ingestion)
  {
    (forall k :: 0 <= k < |es| ==> IsChunkOfDocument(es[k], deps)) &&
    (forall k :: 0 <= k < |es| ==> StartsOrContinues(es, k, deps)) &&
    (es != [] ==> EndsDocument(es[|es| - 1], deps))
  }

  /**
   * Entry `k` starts a document at index 0, either first or right after an
   * entry that ended its document, or it continues the document of entry
   * `k - 1` with the next index.
   */
  predicate StartsOrContinues(es: seq<Entry>, k: int, deps: Ingestion)
    requires 0 <= k < |es|
  {
    if es[k].chunkIndex == 0 then k == 0 || EndsDocument(es[k - 1], deps)
    else
      k > 0 && es[k - 1].chunkIndex + 1 == es[k].chunkIndex &&
      es[k - 1].document == es[k].document && es[k - 1].source == es[k].source
  }

  lemma DocEntriesWellNumbered(doc: Document, path: string, chunks: seq<string>, deps: Ingestion)
    requires deps.chunkText(doc.pageContent) == Success(chunks)
    ensures WellNumbered(DocEntries(doc, path, chunks), deps)
  {
  }

  lemma AppendWellNumbered(a: seq<Entry>, b: seq<Entry>, deps: Ingestion)
    requires WellNumbered(a, deps) && WellNumbered(b, deps)
    ensures WellNumbered(a + b, deps)
  {
    var ab := a + b;
    forall k | 0 <= k < |ab|
      ensures IsChunkOfDocument(ab[k], deps) && StartsOrContinues(ab, k, deps)
    {
      if k < |a| {
        assert ab[k] == a[k];
        assert StartsOrContinues(a, k, deps);
        if k > 0 {
          assert ab[k - 1] == a[k - 1];
        }
      } else {
        assert ab[k] == b[k - |a|];
        assert StartsOrContinues(b, k - |a|, deps);
        if k > |a| {
          assert ab[k - 1] == b[k - 1 - |a|];
        } else if k > 0 {
          assert ab[k - 1] == a[|a| - 1];
        }
      }
    }
    if b != [] {
      assert ab[|ab| - 1] == b[|b| - 1];
    } else {
      assert ab == a;
    }
  }

  lemma {:induction false} GatherDocsWellNumbered(path: string, docs: seq<Document>, deps: Ingestion)
    ensures GatherDocs(path, docs, deps).result.Success? ==> WellNumbered(GatherDocs(path, docs, deps).result.value, deps)
  {
    if docs != [] {
      var pre := docs[..|docs| - 1];
      GatherDocsWellNumbered(path, pre, deps);
      var doc := docs[|docs| - 1];
      var chunks := deps.chunkText(doc.pageContent);
      if GatherDocs(path, pre, deps).result.Success? && chunks.Success? {
        DocEntriesWellNumbered(doc, path, chunks.value, deps);
        AppendWellNumbered(GatherDocs(path, pre, deps).result.value, DocEntries(doc, path, chunks.value), deps);
      }
    }
  }

  /**
   * Across all files, every entry is the `chunkIndex`-th chunk of its own
   * parent document, and the numbering restarts at 0 for each document.
   */
  lemma {:induction false} GatherPathsWellNumbered(paths: seq<string>, deps: Ingestion)
    ensures GatherPaths(paths, deps).result.Success? ==> WellNumbered(GatherPaths(paths, deps).result.value, deps)
  {
    if paths != [] {
      var pre := paths[..|paths| - 1];
      GatherPathsWellNumbered(pre, deps);
      var path := paths[|paths| - 1];
      var loaded := deps.load(path);
      if GatherPaths(pre, deps).result.Success? && loaded.Success? {
        GatherDocsWellNumbered(path, loaded.value, deps);
        if GatherDocs(path, loaded.value, deps).result.Success? {
          AppendWellNumbered(GatherPaths(pre, deps).result.value, GatherDocs(path, loaded.value, deps).result.value, deps);
        }
      }
    }
  }

  // ---------------------------------------------------------------------
  // Properties of the calls
  // ---------------------------------------------------------------------

  /** The loops only load and chunk. */
  predicate OnlyReads(calls: seq<Event>)
  {
    forall k :: 0 <= k < |calls| ==> calls[k].LoadCall? || calls[k].ChunkCall?
  }

  lemma {:induction false} GatherDocsOnlyReads(path: string, docs: seq<Document>, deps: Ingestion)
    ensures OnlyReads(GatherDocs(path, docs, deps).calls)
  {
    if docs != [] {
      GatherDocsOnlyReads(path, docs[..|docs| - 1], deps);
    }
  }

  lemma {:induction false} GatherPathsOnlyReads(paths: seq<string>, deps: Ingestion)
    ensures OnlyReads(GatherPaths(paths, deps).calls)
  {
    if paths != [] {
      var pre := paths[..|paths| - 1];
      GatherPathsOnlyReads(pre, deps);
      var loaded := deps.load(paths[|paths| - 1]);
      if loaded.Success? {
        GatherDocsOnlyReads(paths[|paths| - 1], loaded.value, deps);
      }
    }
  }

  /**
   * `delete_all` first and never again, at most one embedding, after every
   * load and chunk, and an `add_documents` call, if any, last, right after
   * the embedding of as many texts as it stores.
   */
  predicate WellOrdered(calls: seq<Event>)
  {
    (calls != [] ==> calls[0] == DeleteAllCall) &&
    (forall k :: 1 <= k < |calls| ==> !calls[k].DeleteAllCall?) &&
    (forall k :: 0 <= k < |calls| && calls[k].EmbedCall? ==>
      k >= |calls| - 2 && forall j :: 0 <= j < k ==> !calls[j].EmbedCall?) &&
    (forall k :: 0 <= k < |calls| && calls[k].AddCall? ==>
      k == |calls| - 1 && k >= 1 && calls[k - 1].EmbedCall? && |calls[k - 1].texts| == calls[k].count)
  }

  lemma EmbedAndStoreCalls(es: seq<Entry>, deps: Ingestion)
    ensures var calls := EmbedAndStore(es, deps).calls;
      calls == [EmbedCall(Chunks(es))] || calls == [EmbedCall(Chunks(es)), AddCall(|es|)]
  {
  }

  lemma ReadsThenStore(readCalls: seq<Event>, tail: seq<Event>, texts: seq<string>)
    requires OnlyReads(readCalls)
    requires tail == [EmbedCall(texts)] || tail == [EmbedCall(texts), AddCall(|texts|)]
    ensures WellOrdered([DeleteAllCall] + readCalls)
    ensures WellOrdered([DeleteAllCall] + readCalls + tail)
  {
    var calls := [DeleteAllCall] + readCalls + tail;
    assert forall k :: 1 <= k < 1 + |readCalls| ==> calls[k] == readCalls[k - 1];
    assert forall k :: 1 <= k < 1 + |readCalls| ==> ([DeleteAllCall] + readCalls)[k] == readCalls[k - 1];
  }

  /**
   * No call is made for an empty path list; otherwise the calls are
   * well ordered: `delete_all` first and once, the embedding after every read,
   * `add_documents` last.
   */
  lemma CallOrder(paths: seq<string>, deps: Ingestion, before: seq<Record>)
    ensures Import(paths, deps, before).calls == [] <==> paths == []
    ensures WellOrdered(Import(paths, deps, before).calls)
  {
    if paths != [] {
      GatherPathsOnlyReads(paths, deps);
      var g := GatherPaths(paths, deps);
      if g.result.Success? {
        var es := g.result.value;
        EmbedAndStoreCalls(es, deps);
        ReadsThenStore(g.calls, EmbedAndStore(es, deps).calls, Chunks(es));
      } else {
        ReadsThenStore(g.calls, [EmbedCall([])], []);
      }
    }
  }

  /**
   * `add_documents` is reached exactly when every file loaded, every
   * document chunked and the embedding succeeded; otherwise the store is
   * left empty by the earlier `delete_all` and the import fails.
   */
  lemma AddReachedOnlyAfterEmbedding(paths: seq<string>, deps: Ingestion, before: seq<Record>)
    requires paths != []
    ensures var o := Import(paths, deps, before);
      var g := GatherPaths(paths, deps);
      var reached := g.result.Success? && deps.embedTexts(Chunks(g.result.value)).Success?;
      ((exists k :: 0 <= k < |o.calls| && o.calls[k].AddCall?) <==> reached) &&
      (!reached ==> o.result.Failure? && o.records == [])
  {
    var o := Import(paths, deps, before);
    var g := GatherPaths(paths, deps);
    GatherPathsOnlyReads(paths, deps);
    if g.result.Success? {
      var es := g.result.value;
      var tail := EmbedAndStore(es, deps).calls;
      assert o.calls == [DeleteAllCall] + g.calls + tail;
      if deps.embedTexts(Chunks(es)).Success? {
        assert o.calls[|o.calls| - 1].AddCall?;
      } else {
        assert forall k :: 1 <= k < 1 + |g.calls| ==> o.calls[k] == g.calls[k - 1];
      }
    } else {
      assert forall k :: 1 <= k < |o.calls| ==> o.calls[k] == g.calls[k - 1];
    }
  }

  /**
   * A successful import stores one record per chunk, in path, document and
   * chunk order: the `k`-th fresh id, the `k`-th embedding, the whole parent
   * text and the metadata of the `k`-th entry; the one embedding call was
   * given every chunk text.
   */
  lemma StoredRecords(paths: seq<string>, deps: Ingestion, before: seq<Record>)
    requires Import(paths, deps, before).result.Success?
    ensures GatherPaths(paths, deps).result.Success?
    ensures var o := Import(paths, deps, before);
      var es := GatherPaths(paths, deps).result.value;
      var embeddings := deps.embedTexts(Chunks(es));
      embeddings.Success? && |o.records| == |es| == |embeddings.value| &&
      o.calls[|o.calls| - 2] == EmbedCall(Chunks(es)) && o.calls[|o.calls| - 1] == AddCall(|es|) &&
      forall k :: 0 <= k < |es| ==>
        o.records[k] == Record(deps.newId(k), embeddings.value[k], es[k].document, MetadataOf(es[k]))
  {
  }

  /**
   * Two files `a.txt` and `b.txt` of one document each: one `delete_all`,
   * the two loads and chunkings in order, one embedding of all chunks of both
   * files together, and one batched add.
   */
  lemma TwoFiles(deps: Ingestion, before: seq<Record>, da: Document, db: Document,
                 ca: seq<string>, cb: seq<string>, embeddings: seq<Embedding>)
    requires deps.load("a.txt") == Success([da]) && deps.load("b.txt") == Success([db])
    requires deps.chunkText(da.pageContent) == Success(ca) && deps.chunkText(db.pageContent) == Success(cb)
    requires deps.embedTexts(ca + cb) == Success(embeddings) && |embeddings| == |ca| + |cb|
    ensures Import(["a.txt", "b.txt"], deps, before).result == Success(())
    ensures Import(["a.txt", "b.txt"], deps, before).calls ==
      [DeleteAllCall, LoadCall("a.txt"), ChunkCall(da.pageContent), LoadCall("b.txt"), ChunkCall(db.pageContent),
       EmbedCall(ca + cb), AddCall(|ca| + |cb|)]
  {
    var ea := DocEntries(da, "a.txt", ca);
    var eb := DocEntries(db, "b.txt", cb);
    TwoFilesGathered(deps, da, db, ca, cb);
    assert Chunks(ea + eb) == ca + cb;
    assert |ea + eb| == |ca| + |cb|;
  }

  lemma OneDocument(path: string, doc: Document, chunks: seq<string>, deps: Ingestion)
    requires deps.chunkText(doc.pageContent) == Success(chunks)
    ensures GatherDocs(path, [doc], deps) == Gathered(Success(DocEntries(doc, path, chunks)), [ChunkCall(doc.pageContent)])
  {
    assert [doc][..0] == [];
    assert [] + DocEntries(doc, path, chunks) == DocEntries(doc, path, chunks);
  }

  lemma TwoFilesGathered(deps: Ingestion, da: Document, db: Document, ca: seq<string>, cb: seq<string>)
    requires deps.load("a.txt") == Success([da]) && deps.load("b.txt") == Success([db])
    requires deps.chunkText(da.pageContent) == Success(ca) && deps.chunkText(db.pageContent) == Success(cb)
    ensures GatherPaths(["a.txt", "b.txt"], deps) ==
      Gathered(Success(DocEntries(da, "a.txt", ca) + DocEntries(db, "b.txt", cb)),
        [LoadCall("a.txt"), ChunkCall(da.pageContent), LoadCall("b.txt"), ChunkCall(db.pageContent)])
  {
    var ea := DocEntries(da, "a.txt", ca);
    OneDocument("a.txt", da, ca, deps);
    OneDocument("b.txt", db, cb, deps);
    assert ["a.txt", "b.txt"][..1] == ["a.txt"];
    assert ["a.txt"][..0] == [];
    assert [] + ea == ea;
    assert GatherPaths(["a.txt"], deps) == Gathered(Success(ea), [LoadCall("a.txt"), ChunkCall(da.pageContent)]);
  }
}
