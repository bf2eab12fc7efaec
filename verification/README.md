# IT helpdesk knowledge chat — a Dafny model of its core

The system answers IT-support questions from a knowledge base built out of
uploaded files. It has two pipelines and two loaders:

- **Ingestion** (`ImportFilesUseCase`). The vector store is cleared. Every file
  is loaded into documents, and every document is cut into chunks. All chunks
  are embedded in one batch and stored in one batch. Each stored record keeps
  the whole parent text, the source and the chunk's index within its document.
- **Chat** (`ChatUseCase`). The history is validated. The last user message is
  embedded, and similar chunks are retrieved. A language model re-ranks the
  candidates by returning a JSON list of indices. If nothing survives, a fixed
  bilingual apology is returned. Otherwise the model answers from a
  `"[source] text"` context and the transcript, and a numbered `References:`
  block is appended.
- **JSON loader** (`JsonLoader`). It flattens a JSON tree into indented text,
  and it records the file's basename as the document's source.
- **Multi-format loader** (`MultiFormatLoader`). It dispatches on the
  lower-cased path suffix to the text, PDF, markdown or JSON loader, and raises
  `ValueError` for any other suffix.

The embedding service, the vector store query, the language model, the chunker
and the format-specific loaders are function values. Every call made to them is
recorded in order, so call counts and call order can be stated.

Files:

- `wrappers.dfy`: `Option` and `Result`.
- `text.dfy`: the Python string operations the core uses. These are `join`,
  `split` on one character (with its round trip), `str()` of integers and
  `lower()`.
- `domain.dfy`: documents, metadata values, embeddings and the exceptions that
  can escape.
- `paths.dfy`: the basename expression shared by all loaders, and
  `PurePosixPath.name` / `.suffix`.
- `json_loader.dfy`, `multi_format_loader.dfy`, `chat_use_case.dfy`,
  `import_files_use_case.dfy`: one module per core source file.

Modelling choices:

- **Chat.** `Respond` is the specification of `invoke`. It returns the outcome
  together with the list of calls made. The method `ChatUseCase.Invoke` is
  written in the source's sequential style (early returns, `+=` on the answer)
  and is proved equal to `Respond`. What follows the retrieval is the method
  `RerankAndAnswer`, and what follows the selection is the method
  `AnswerWith`. `_build_context_text` and `_extract_references` are
  loop methods, each proved equal to a specification function.
- **Re-rank list.** Each parsed element is an integer, a float or anything
  else. This captures what Python does with each: a negative index counts
  from the end, and an index below `-len` raises `IndexError`. A float that
  passes the `<` test raises `TypeError`, as does any element that cannot be
  compared with an integer. Both exceptions escape.
- **Ingestion.** The store is a class whose `records` field is changed by
  `DeleteAll` and `AddDocuments`. The use case is a class holding its
  collaborators and the store. Its nested loops are split into methods, one
  per level: the outer loop in `Invoke` with its body in `AddFile`, the loop
  over documents in `AddFileDocuments`, the loop over chunks in `AddChunks`.
  The three parallel lists travel together as one `Batch` value.
- **Code over docstrings.** The chat module's docstrings speak of a cosine
  similarity threshold, but the code never reads distances and filters only by
  the model's index list. The model follows the code. It also raises Python's
  `ValueError`, as the code does, where a language-neutral description would
  speak of an invalid argument.

## Model

| member | source | states |
|---|---|---|
| Paths.Basename | src/knowledge_chat/infrastructure/document_loader/json_loader.py:43 | defines the recorded source: the last `/`-part of the last `\`-part of the path |
| Paths.AfterLastIsTail | src/knowledge_chat/infrastructure/document_loader/json_loader.py:43 | `s.split(sep)[-1]` is a tail of `s` without `sep`; when shorter than `s`, it is preceded by `sep` |
| Paths.BasenameIsAfterLastSeparator | src/knowledge_chat/infrastructure/document_loader/json_loader.py:43 | the recorded source is a tail of the path that holds neither `\` nor `/` and is preceded by one of them unless it is the whole path |
| Paths.BasenameUnique | src/knowledge_chat/infrastructure/document_loader/json_loader.py:43 | no other tail of the path has those properties, so the source is exactly the text after the last `\` or `/` |
| Paths.LastComponent | src/knowledge_chat/infrastructure/document_loader/multi_format_loader.py:51 | the name is `""` exactly when every component is empty or `.`; otherwise it is a component after which every component is empty or `.`, so the last usable one; never `"."` |
| Paths.PathName | src/knowledge_chat/infrastructure/document_loader/multi_format_loader.py:51 | defines `PurePosixPath(path).name`: the last usable component of the `/`-split path |
| Paths.LastUsable | src/knowledge_chat/infrastructure/document_loader/multi_format_loader.py:51 | the index of the last component that is neither empty nor `.`, or -1; every later component is empty or `.` |
| Paths.PathNameUnderDirectory | src/knowledge_chat/infrastructure/document_loader/multi_format_loader.py:51 | for any directory, the name of `dir/name` is `name` when `name` is usable and holds no `/` |
| Paths.PathNameOfBareName | src/knowledge_chat/infrastructure/document_loader/multi_format_loader.py:51 | a usable name without `/` is its own name |
| Paths.RFind | src/knowledge_chat/infrastructure/document_loader/multi_format_loader.py:51 | the last position of the character, or -1; no occurrence follows it |
| Paths.NameSuffix | src/knowledge_chat/infrastructure/document_loader/multi_format_loader.py:51 | `.suffix` is empty exactly for names without a dot, ending in a dot, or whose only dot is the first character; otherwise it is the tail from the last dot, at least two characters long and shorter than the name |
| Paths.PathSuffix | src/knowledge_chat/infrastructure/document_loader/multi_format_loader.py:51 | defines `Path(path).suffix` as the suffix of the path's name |
| JsonLoader.ToText | src/knowledge_chat/infrastructure/document_loader/json_loader.py:50-82 | defines `_json_to_text`: the newline join of the lines the object, list or scalar contributes |
| JsonLoader.Lines | src/knowledge_chat/infrastructure/document_loader/json_loader.py:60-80 | defines the `lines` list: the entries' lines for an object, the items' lines for a list, the prefixed scalar text otherwise |
| JsonLoader.MemberLines | src/knowledge_chat/infrastructure/document_loader/json_loader.py:63-69 | defines what one dictionary entry appends |
| JsonLoader.ItemLines | src/knowledge_chat/infrastructure/document_loader/json_loader.py:71-77 | defines what one list item appends |
| JsonLoader.ScalarText | src/knowledge_chat/infrastructure/document_loader/json_loader.py:69 | defines Python's `str()` of a scalar, with `True`, `False` and `None` spelt as Python does |
| JsonLoader.Prefix | src/knowledge_chat/infrastructure/document_loader/json_loader.py:61 | the prefix is exactly two spaces per indent level |
| JsonLoader.ToTextIsFlatLines | src/knowledge_chat/infrastructure/document_loader/json_loader.py:60-82 | the rendering is the newline join of an independent flat line list, in which nested containers expand in place and keys and items keep their order |
| JsonLoader.MemberIsFlat | src/knowledge_chat/infrastructure/document_loader/json_loader.py:63-69 | a scalar entry is `"<prefix>key: value"`; a container entry is `"<prefix>key:"` followed by its rendering one level deeper |
| JsonLoader.ItemIsFlat | src/knowledge_chat/infrastructure/document_loader/json_loader.py:71-77 | a scalar item is `"<prefix>- item"`; a container item is `"<prefix>Item k:"`, with `k` counted from 1, followed by its rendering one level deeper |
| JsonLoader.FlatLinesAreSingleLines | src/knowledge_chat/infrastructure/document_loader/json_loader.py:60-82 | when no key or scalar holds a newline, no flat line does |
| JsonLoader.FlatMemberIsSingleLines | src/knowledge_chat/infrastructure/document_loader/json_loader.py:63-69 | the same for the lines of one entry |
| JsonLoader.FlatItemIsSingleLines | src/knowledge_chat/infrastructure/document_loader/json_loader.py:71-77 | the same for the lines of one item |
| JsonLoader.RenderedLines | src/knowledge_chat/infrastructure/document_loader/json_loader.py:82 | when no key or scalar holds a newline, splitting the text at newlines gives back exactly the flat lines, so lines are joined by `"\n"` with no trailing newline |
| JsonLoader.PrefixOfDeeper | src/knowledge_chat/infrastructure/document_loader/json_loader.py:61 | a deeper prefix extends a shallower one |
| JsonLoader.LinesAreIndented | src/knowledge_chat/infrastructure/document_loader/json_loader.py:60-82 | every non-empty line rendered at level `n` starts with the level-`n` prefix |
| JsonLoader.MemberIsIndented | src/knowledge_chat/infrastructure/document_loader/json_loader.py:63-69 | the same for the lines of one entry |
| JsonLoader.ItemIsIndented | src/knowledge_chat/infrastructure/document_loader/json_loader.py:71-77 | the same for the lines of one item |
| JsonLoader.ScalarsAndEmptyContainers | src/knowledge_chat/infrastructure/document_loader/json_loader.py:79-82 | a top-level scalar renders as its text alone; an empty object or list renders as `""` |
| JsonLoader.NestedEmptyContainers | src/knowledge_chat/infrastructure/document_loader/json_loader.py:65-67 | a nested empty container still emits its header line followed by an empty line (`"a:\n"`, `"Item 1:\n"`) |
| JsonLoader.ScalarEntryExample | src/knowledge_chat/infrastructure/document_loader/json_loader.py:69 | `{"retry": 2}` at level 2 renders as `"    retry: 2"` |
| JsonLoader.ListExampleLines | src/knowledge_chat/infrastructure/document_loader/json_loader.py:71-77 | the lines of a list mixing a scalar and an object |
| JsonLoader.ListExample | src/knowledge_chat/infrastructure/document_loader/json_loader.py:71-77 | that list renders as `"  - restart\n  Item 2:\n    retry: 2"` |
| JsonLoader.MixedExampleLines | src/knowledge_chat/infrastructure/document_loader/json_loader.py:63-69 | the lines of an object holding a scalar and a list |
| JsonLoader.MixedExample | src/knowledge_chat/infrastructure/document_loader/json_loader.py:63-69 | that object renders as `"name: VPN\nsteps:\n"` followed by the list's rendering one level deeper |
| JsonLoader.Load | src/knowledge_chat/infrastructure/document_loader/json_loader.py:40-48 | exactly one document, whose text is the flattened JSON and whose metadata is exactly `source` (the basename) and `file_type` `"json"` |
| MultiFormatLoader.LoaderFor | src/knowledge_chat/infrastructure/document_loader/multi_format_loader.py:53-60 | defines the `if`/`elif` chain from a lower-case suffix to one of the four loaders |
| MultiFormatLoader.Extension | src/knowledge_chat/infrastructure/document_loader/multi_format_loader.py:51 | defines the compared suffix, `Path(file_path).suffix.lower()` |
| Text.Lower | src/knowledge_chat/infrastructure/document_loader/multi_format_loader.py:51 | defines `str.lower()` character by character, for ASCII capitals and the Kelvin sign |
| MultiFormatLoader.GetSupportedExtensions | src/knowledge_chat/infrastructure/document_loader/multi_format_loader.py:67-74 | five distinct lower-case suffixes, each starting with a dot |
| MultiFormatLoader.Load | src/knowledge_chat/infrastructure/document_loader/multi_format_loader.py:38-65 | succeeds exactly when the lower-cased suffix is supported, returning unchanged the result of the one loader chosen for it; otherwise raises the `Unsupported file format` `ValueError` naming the suffix |
| MultiFormatLoader.SupportedExtensionsAreDispatched | src/knowledge_chat/infrastructure/document_loader/multi_format_loader.py:53-60 | the supported list holds exactly the suffixes the `if`/`elif` chain dispatches |
| MultiFormatLoader.LowerKeepsDots | src/knowledge_chat/infrastructure/document_loader/multi_format_loader.py:51 | lower-casing keeps length and the positions of dots |
| MultiFormatLoader.DispatchIgnoresCase | src/knowledge_chat/infrastructure/document_loader/multi_format_loader.py:51-60 | a file `dir/stem.EXT` whose suffix is supported in any letter case, such as `.TXT` or `.Md`, in any directory, dispatches like its lower-case form |
| MultiFormatLoader.BareNameDispatchIgnoresCase | src/knowledge_chat/infrastructure/document_loader/multi_format_loader.py:51-60 | the same for a bare file name |
| MultiFormatLoader.SuffixOfName | src/knowledge_chat/infrastructure/document_loader/multi_format_loader.py:51 | a usable name ending in a supported extension in any letter case has that extension, lower-cased, as its lower-cased suffix |
| MultiFormatLoader.NoSuffixIsRefused | src/knowledge_chat/infrastructure/document_loader/multi_format_loader.py:61-65 | a file `dir/name` whose name has no suffix, such as `README` or `.txt`, raises `ValueError` with the empty suffix, in any directory |
| MultiFormatLoader.BareNameNoSuffixIsRefused | src/knowledge_chat/infrastructure/document_loader/multi_format_loader.py:61-65 | the same for a bare name |
| ChatUseCase.Position | src/knowledge_chat/application/chat_use_case.py:192 | what one parsed element does: an index from 0 up to the length picks that position; one from `-len` up to -1 picks `i + len`; one below `-len` raises `IndexError`; an integer or float at or beyond the length is skipped; a float below the length, or anything not comparable with an integer, raises `TypeError` |
| ChatUseCase.Positions | src/knowledge_chat/application/chat_use_case.py:192 | the picked positions are all in range and no more than the parsed elements; only `IndexError`/`TypeError` can arise |
| ChatUseCase.Select | src/knowledge_chat/application/chat_use_case.py:192-193 | the filtered list is never longer than the parsed list; only `IndexError`/`TypeError` can arise |
| ChatUseCase.PositionsSucceed | src/knowledge_chat/application/chat_use_case.py:192-193 | the filtering raises exactly when some element raises on its own |
| ChatUseCase.SelectInRange | src/knowledge_chat/application/chat_use_case.py:192-193 | with in-range non-negative indices, entry `k` is the candidate at the `k`-th parsed index, in parsed order, duplicates kept |
| ChatUseCase.TooLargeIndexSkipped | src/knowledge_chat/application/chat_use_case.py:192-193 | an index at or beyond the length is dropped wherever it stands |
| ChatUseCase.SelectExamples | src/knowledge_chat/application/chat_use_case.py:192-193 | `[0, 5]` over two candidates keeps only the first; `-1` picks the last; `-3` raises `IndexError` |
| ChatUseCase.NegativeIndexCountsFromEnd | src/knowledge_chat/application/chat_use_case.py:192 | for any candidates, a negative index `i` from `-len` up selects the candidate at `i + len` |
| ChatUseCase.FirstFailureEscapes | src/knowledge_chat/application/chat_use_case.py:192 | the first element that raises ends the comprehension with its exception, whatever follows |
| ChatUseCase.SelectRaises | src/knowledge_chat/application/chat_use_case.py:192 | so a float below the length or an uncomparable element raises `TypeError`, and an index below `-len` raises `IndexError`, once the elements before it are usable |
| ChatUseCase.Candidates | src/knowledge_chat/application/chat_use_case.py:167-171 | defines the retrieved candidates: the first batch of `documents`, `[[]]` when the key is absent |
| ChatUseCase.Listing | src/knowledge_chat/application/chat_use_case.py:174 | defines the re-rank listing: `"[i] chunk"` entries joined by blank lines |
| ChatUseCase.ListingAppend | src/knowledge_chat/application/chat_use_case.py:174 | one candidate is listed as `[0] chunk`; each further candidate adds a blank line and its entry numbered by its zero-based position |
| ChatUseCase.RerankPrompt | src/knowledge_chat/application/chat_use_case.py:175-178 | defines the re-rank prompt: the query and the listing filled into the re-rank template |
| ChatUseCase.RelevantIndices | src/knowledge_chat/application/chat_use_case.py:183-189 | defines the parsed index list: the decoded list, or `[]` when the answer is not JSON or not a list |
| ChatUseCase.FilterRelevantDocs | src/knowledge_chat/application/chat_use_case.py:167-195 | no candidate means an empty selection and no call; otherwise exactly one re-rank generation with the query and the listing; no `ValueError` escapes |
| ChatUseCase.AlignedSelection | src/knowledge_chat/application/chat_use_case.py:192-195 | with valid indices and metadata as long as the documents, the two filtered lists stay paired position by position |
| ChatUseCase.UnusableAnswerSelectsNothing | src/knowledge_chat/application/chat_use_case.py:183-189 | an answer that is not JSON, or not a list, selects nothing and raises nothing |
| ChatUseCase.ContextText | src/knowledge_chat/application/chat_use_case.py:206-217 | defines the context: the marker text for no document, otherwise the `"[source] doc"` lines joined by newlines, or `IndexError` when metadata runs out |
| ChatUseCase.BuildContextText | src/knowledge_chat/application/chat_use_case.py:197-217 | the loop yields the marker text for no document, `IndexError` when metadata runs out, and otherwise one `"[source] doc"` line per document joined by newlines |
| ChatUseCase.ContextLinesOfEachDocument | src/knowledge_chat/application/chat_use_case.py:212-217 | for any documents, multi-line ones included, the context's lines are each document's `"[source] doc"` lines, in document order |
| ChatUseCase.ContextHasOneLinePerDocument | src/knowledge_chat/application/chat_use_case.py:212-217 | when no document or source holds a newline, the context splits back into exactly one line per filtered document, in order |
| ChatUseCase.SourceLabels | src/knowledge_chat/application/chat_use_case.py:214-215 | `Unknown file` appears only when the `source` key is absent; an empty source renders as `"[] doc"` |
| ChatUseCase.MisalignedMetadataFails | src/knowledge_chat/application/chat_use_case.py:192-193 | with two candidates but one metadata entry, selecting index 1 leaves the document without metadata and the context raises `IndexError` |
| ChatUseCase.References | src/knowledge_chat/application/chat_use_case.py:228-237 | defines the references: the truthy sources, each kept at its first appearance |
| ChatUseCase.FirstAt | src/knowledge_chat/application/chat_use_case.py:232-236 | the first position whose metadata names a source, or the length when none does |
| ChatUseCase.ExtractReferences | src/knowledge_chat/application/chat_use_case.py:219-237 | the loop's result equals the first-seen list of truthy sources |
| ChatUseCase.ReferencesAreSources | src/knowledge_chat/application/chat_use_case.py:232-236 | every reference is truthy and is the source of some filtered metadata |
| ChatUseCase.ReferencesAreComplete | src/knowledge_chat/application/chat_use_case.py:232-236 | every truthy source of the filtered metadata is a reference |
| ChatUseCase.ReferencesAreDistinct | src/knowledge_chat/application/chat_use_case.py:234 | no reference is listed twice |
| ChatUseCase.ReferencesInFirstSeenOrder | src/knowledge_chat/application/chat_use_case.py:232-236 | references are ordered by the first appearance of their source |
| ChatUseCase.DuplicateSourcesCollapse | src/knowledge_chat/application/chat_use_case.py:232-236 | sources `a.txt`, `a.txt`, `b.txt` give references `a.txt`, `b.txt` |
| ChatUseCase.Transcript | src/knowledge_chat/application/chat_use_case.py:249-251 | defines the transcript: one `"Role: content"` line per message, joined by newlines |
| ChatUseCase.BuildPrompt | src/knowledge_chat/application/chat_use_case.py:253-256 | defines the chat prompt: the context and the transcript filled into the chat template |
| ChatUseCase.TranscriptLinesOfEachMessage | src/knowledge_chat/application/chat_use_case.py:249-251 | for any history, answers with a references block included, the transcript's lines are each message's `"User: …"` or `"Ai: …"` lines, in history order; no history gives one empty line |
| ChatUseCase.TranscriptHasOneLinePerMessage | src/knowledge_chat/application/chat_use_case.py:249-251 | when no message holds a newline, the transcript splits back into one `"User: …"` or `"Ai: …"` line per message, in history order |
| ChatUseCase.ReferencesBlock | src/knowledge_chat/application/chat_use_case.py:127-130 | defines the block: `"\n\nReferences:\n"` and the `"[n] source"` lines, numbered from 1 |
| ChatUseCase.Annotate | src/knowledge_chat/application/chat_use_case.py:126-131 | the generated text is followed by the references block if and only if there is a reference |
| ChatUseCase.AnnotatedLines | src/knowledge_chat/application/chat_use_case.py:126-131 | read line by line, the annotated answer is the answer's own lines, possibly several, then an empty line, `References:` and the 1-based `"[n] source"` lines |
| ChatUseCase.Answer | src/knowledge_chat/application/chat_use_case.py:111-132 | after the selection: the apology with no call when nothing was selected, at most one generation, and every answer is an AI message |
| ChatUseCase.Respond | src/knowledge_chat/application/chat_use_case.py:67-132 | defines `invoke`: validation, embedding, query, re-rank and answer, with the outcome and every call made in order |
| ChatUseCase.Rerank | src/knowledge_chat/application/chat_use_case.py:110-132 | defines what follows the retrieval: the re-rank and the answer from its selection |
| ChatUseCase.Invoke | src/knowledge_chat/application/chat_use_case.py:67-132 | the sequential method gives the outcome and the calls of `Respond` |
| ChatUseCase.RerankAndAnswer | src/knowledge_chat/application/chat_use_case.py:110-132 | the sequential re-rank and answer give the outcome and calls of `Rerank` |
| ChatUseCase.AnswerWith | src/knowledge_chat/application/chat_use_case.py:111-132 | the sequential second half gives the outcome and calls of `Answer` |
| ChatUseCase.HistoryIsValidatedFirst | src/knowledge_chat/application/chat_use_case.py:93-98 | `ValueError` arises if and only if the history is empty or does not end with a user message, and then no service is called |
| ChatUseCase.NothingRetrievedGivesApology | src/knowledge_chat/application/chat_use_case.py:170-171 | with no retrieved candidate, the result is the AI apology after only the embedding and the query, with no generation |
| ChatUseCase.UnusableRerankGivesApology | src/knowledge_chat/application/chat_use_case.py:181-189 | an unparseable or non-list re-rank answer gives the apology after exactly one generation |
| ChatUseCase.GenerationCount | src/knowledge_chat/application/chat_use_case.py:111-132 | at most two generations; any answer other than the apology took exactly two; every answer is an AI message |
| ChatUseCase.RerankCount | src/knowledge_chat/application/chat_use_case.py:110-132 | past the retrieval, at most two generations, two for any answer but the apology, and every answer is an AI message |
| ChatUseCase.BlueScreenScenario | src/knowledge_chat/application/chat_use_case.py:93-132 | a question with two candidates from `bsod_en.txt` and `bsod_vi.txt`, re-ranked as `[0, 1]`, gives the generated text followed by `[1] bsod_en.txt` and `[2] bsod_vi.txt` |
| ChatUseCase.QuestionWithTwoSources | src/knowledge_chat/application/chat_use_case.py:93-132 | for any question whose two candidates come from distinct non-empty sources `a` and `b` and are both re-ranked as relevant, the answer is the generated text followed by `[1] a` and `[2] b` |
| ChatUseCase.AnswerWithTwoSources | src/knowledge_chat/application/chat_use_case.py:118-132 | two selected documents with distinct non-empty sources give the answer followed by both references, numbered from 1 |
| ImportFilesUseCase.Zip | src/knowledge_chat/application/import_files_use_case.py:103-108 | one record per id, pairing the four lists position by position |
| ImportFilesUseCase.VectorStore.DeleteAll | src/knowledge_chat/application/import_files_use_case.py:57 | the store is empty afterwards |
| ImportFilesUseCase.VectorStore.AddDocuments | src/knowledge_chat/application/import_files_use_case.py:103-108 | a batch whose four lists agree in length is appended; any other batch is refused and the store is unchanged |
| ImportFilesUseCase.SourceOf | src/knowledge_chat/application/import_files_use_case.py:72 | defines the stored source: the document's own `source` metadata, or the file path |
| ImportFilesUseCase.DocEntries | src/knowledge_chat/application/import_files_use_case.py:68-76 | one entry per chunk, in chunk order, numbered from 0, each holding the whole parent text and `doc.metadata.get("source", path)` |
| ImportFilesUseCase.BatchOf | src/knowledge_chat/application/import_files_use_case.py:59-61 | the three lists have equal length, one position per entry |
| ImportFilesUseCase.GatherDocs | src/knowledge_chat/application/import_files_use_case.py:65-76 | defines the loop over one file's documents: chunk each, stop at the first failure |
| ImportFilesUseCase.GatherPaths | src/knowledge_chat/application/import_files_use_case.py:63-76 | defines the loop over the paths: load each, then its documents, stop at the first failure |
| ImportFilesUseCase.GatherPathsStops | src/knowledge_chat/application/import_files_use_case.py:63-64 | after a file fails to load or chunk, no later file is touched |
| ImportFilesUseCase.GatherDocsStops | src/knowledge_chat/application/import_files_use_case.py:65-66 | after a document fails to chunk, no later document is touched |
| ImportFilesUseCase.NewIds | src/knowledge_chat/application/import_files_use_case.py:101 | one id per chunk text |
| ImportFilesUseCase.Persist | src/knowledge_chat/application/import_files_use_case.py:93-108 | defines `_persist_to_vector_store`: the records for fresh ids, or the store's refusal |
| ImportFilesUseCase.EmbedAndStore | src/knowledge_chat/application/import_files_use_case.py:79-87 | defines the end of `invoke`: one embedding of all chunks, then one add |
| ImportFilesUseCase.Import | src/knowledge_chat/application/import_files_use_case.py:44-87 | defines `invoke`: the result, the calls in order and the records afterwards |
| ImportFilesUseCase.ImportFiles.constructor | src/knowledge_chat/application/import_files_use_case.py:20-38 | the collaborators and the store are kept as given |
| ImportFilesUseCase.ImportFiles.Invoke | src/knowledge_chat/application/import_files_use_case.py:44-87 | the result, the calls and the store afterwards are those of `Import` |
| ImportFilesUseCase.ImportFiles.EmbedAndPersist | src/knowledge_chat/application/import_files_use_case.py:78-87 | one embedding of all chunk texts, then one batched add, as `EmbedAndStore` describes |
| ImportFilesUseCase.ImportFiles.AddFile | src/knowledge_chat/application/import_files_use_case.py:63-76 | one pass of the loop over paths: the load and the loop over its documents, as `GatherFile` describes, with the batch grown by exactly that file's entries |
| ImportFilesUseCase.ImportFiles.AddFileDocuments | src/knowledge_chat/application/import_files_use_case.py:65-76 | the loop over one file's documents gives the calls and the entries of `GatherDocs`, and the batch grows by exactly those entries |
| ImportFilesUseCase.ImportFiles.AddChunks | src/knowledge_chat/application/import_files_use_case.py:68-76 | the loop over one document's chunks appends exactly that document's entries to the three lists |
| ImportFilesUseCase.ImportFiles.PersistToVectorStore | src/knowledge_chat/application/import_files_use_case.py:93-108 | one fresh id per text, then the store's add with documents, embeddings and metadata |
| ImportFilesUseCase.DocEntriesWellNumbered | src/knowledge_chat/application/import_files_use_case.py:68-76 | each entry of a document is the `chunk_index`-th chunk of its parent, and the indices run from 0 to the parent's last chunk |
| ImportFilesUseCase.GatherDocsWellNumbered | src/knowledge_chat/application/import_files_use_case.py:65-76 | the same across all documents of one file |
| ImportFilesUseCase.GatherPathsWellNumbered | src/knowledge_chat/application/import_files_use_case.py:63-76 | across all files, every entry is the `chunk_index`-th chunk of its own stored parent, and each document's entries form one complete run 0, 1, … up to its last chunk: an index 0 comes first or right after a document's last chunk, and any other index follows its predecessor in the same document |
| ImportFilesUseCase.GatherDocsOnlyReads | src/knowledge_chat/application/import_files_use_case.py:65-66 | the loop over documents only chunks |
| ImportFilesUseCase.GatherPathsOnlyReads | src/knowledge_chat/application/import_files_use_case.py:63-66 | the loops only load and chunk |
| ImportFilesUseCase.EmbedAndStoreCalls | src/knowledge_chat/application/import_files_use_case.py:79-87 | the end of the import embeds every chunk text once, then possibly adds as many records |
| ImportFilesUseCase.CallOrder | src/knowledge_chat/application/import_files_use_case.py:53-87 | no call at all for an empty path list; otherwise `delete_all` comes first and only once, one embedding comes after every load and chunk, and any add is last |
| ImportFilesUseCase.AddReachedOnlyAfterEmbedding | src/knowledge_chat/application/import_files_use_case.py:57-87 | `add_documents` is reached exactly when loading, chunking and embedding all succeeded; otherwise the import fails and leaves the store empty |
| ImportFilesUseCase.StoredRecords | src/knowledge_chat/application/import_files_use_case.py:70-76 | a successful import stores, in order, one record per chunk with the `k`-th id, the `k`-th embedding, the whole parent text and its `source`/`chunk_index`, after one embedding of every chunk and one add of all of them |
| ImportFilesUseCase.TwoFiles | src/knowledge_chat/application/import_files_use_case.py:53-87 | importing `a.txt` and `b.txt` calls `delete_all` once, loads and chunks both in order, then makes one embedding of both files' chunks together and one add |

## Left out

- File reading, `json.load`, PDF, text and markdown parsing are I/O. The
  loaders are values passed in, and the JSON loader takes the parsed tree as
  input.
- The chunker's algorithm is a LangChain splitter whose code is not part of
  this model. It is an abstract function from text to chunks.
- The embedding service, the language model and the vector store query are
  network clients. They are abstract functions; distances and temperature are
  never read.
- `uuid.uuid4()`: the `k`-th id of a batch comes from a function passed in.
  That ids are random and distinct is not modelled.
- ImportFilesUseCase.VectorStore.DeleteAll: always succeeds. A `delete_all`
  that raises, which would end `invoke` before any file is loaded, is not
  modelled; the store's own failures are outside the model.
- ImportFilesUseCase.VectorStore.AddDocuments: checks only that the four lists
  agree in length. Other validation the real store performs, such as refusing
  an empty batch or duplicate ids, is not modelled.
- Prompt templates are opaque text with two holes, filled in order. Their
  wording is not modelled.
- JSON floats carry their own Python `str()` text (`JFloat(repr)`). How Python
  renders floats is not modelled.
- Re-rank lists holding `NaN` or infinities are not distinguished from other
  floats.
- Metadata values are strings or integers. Float and boolean metadata, and
  Python's `True == 1` when deduplicating references, are not modelled.
- A missing `documents` or `metadatas` key is modelled; a key present with the
  value `None` is not.
- Paths.NameSuffix: follows Python up to 3.13, where a name ending in a dot has
  no suffix. Windows path syntax (`PureWindowsPath`) is not modelled.
- MultiFormatLoader.Extension: lower-casing covers ASCII letters and the
  Kelvin sign, which is the only non-ASCII character whose lower-case form is
  ASCII. Other non-ASCII case mappings are not modelled, and they cannot turn
  a suffix into a supported one.
- Gradio UI, text-to-speech, configuration, dependency wiring and the unused
  movie entity are outside the core. So is the session history the UI keeps:
  histories are values here, so `invoke` cannot change the caller's list.
