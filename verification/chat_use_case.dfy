/**
 * `ChatUseCase`: the retrieval-augmented chat pipeline. The embedding
 * service, the vector store and the language model are function values;
 * every call made to them is recorded, so that the number and order of calls
 * can be stated.
 */
module ChatUseCase {
  import opened Wrappers
  import opened Text
  import opened Domain

  /** `MessageType`: the author of a turn. */
  datatype MessageType = User | Ai

  /** `Message`: one turn of the conversation. */
  datatype Message = Message(msgType: MessageType, content: string)

  /** `msg.type.value.title()`: `"user"` becomes `"User"`, `"ai"` becomes `"Ai"`. */
  function RoleTitle(t: MessageType): string
  {
    match t
    case User => "User"
    case Ai => "Ai"
  }

  /**
   * One element of the list the re-rank answer decodes to. JSON integers
   * (and `true`/`false`, which Python compares and indexes as 1 and 0) are
   * `IntElem`; JSON floats are `FloatElem`; strings, `null`, lists and
   * objects are `OtherElem`.
   */
  datatype Elem = IntElem(i: int) | FloatElem(r: real) | OtherElem

  /** What `json.loads` makes of the re-rank answer, as far as the pipeline looks at it. */
  datatype Decoded = NotJson | NotAList | JsonList(elems: seq<Elem>)

  /**
   * What `query_similar` returns: the `documents` and `metadatas` entries,
   * each a batch of one list, either of them possibly missing. Distances are
   * never read and are left out.
   */
  datatype QueryResult = QueryResult(documents: Option<seq<seq<string>>>, metadatas: Option<seq<seq<Metadata>>>)

  /** The filtered result `{"documents": [docs], "metadatas": [metas]}`, without the batch-of-one wrapping. */
  datatype Filtered = Filtered(documents: seq<string>, metadatas: seq<Metadata>)

  /** A prompt template with two holes, filled by `str.format` in order. */
  datatype Template = Template(head: string, middle: string, tail: string)
  {
    function Fill(first: string, second: string): string
    {
      head + first + middle + second + tail
    }
  }

  /**
   * The collaborators: the embedding service, the vector store query, the
   * language model (each returning a result or the message of what it
   * raised), the decoding of the model's re-rank answer, and the chat and
   * re-rank prompt templates.
   */
  datatype Services = Services(
    embedTexts: seq<string> -> Result<seq<Embedding>, string>,
    querySimilar: (Embedding, int) -> Result<QueryResult, string>,
    generate: string -> Result<string, string>,
    decode: string -> Decoded,
    chatTemplate: Template,
    rerankTemplate: Template)

  /** A call made to a collaborator. */
  datatype Call = EmbedTexts(texts: seq<string>) | QuerySimilar(embedding: Embedding, topK: int) | Generate(prompt: string)

  /** The outcome of a step, with the calls it made in order. */
  datatype Stage<T> = Stage(result: Result<T, Error>, calls: seq<Call>)

  const Apology: string := "Xin lỗi, tôi không thể tìm thấy thông tin liên quan. (I'm sorry, I could not find relevant information in the knowledge base.)"

  const NoContext: string := "No relevant context found."

  function CountGenerate(calls: seq<Call>): (n: nat)
    ensures n <= |calls|
  {
    if calls == [] then 0 else (if calls[0].Generate? then 1 else 0) + CountGenerate(calls[1..])
  }

  lemma {:induction false} CountGenerateAppend(a: seq<Call>, b: seq<Call>)
    ensures CountGenerate(a + b) == CountGenerate(a) + CountGenerate(b)
  {
    if a == [] {
      assert a + b == b;
    } else {
      assert (a + b)[0] == a[0];
      assert (a + b)[1..] == a[1..] + b;
      CountGenerateAppend(a[1..], b);
    }
  }

  // ---------------------------------------------------------------------
  // Selecting the relevant candidates
  // ---------------------------------------------------------------------

  /**
   * What one parsed element contributes to `[xs[i] for i in indices if i <
   * len(xs)]` over a list of length `n`: a position (a negative index counts
   * from the end), nothing (not below `n`), or the exception Python raises
   * (`IndexError` below `-n`, `TypeError` when a float passes the test or the
   * element cannot be compared with an integer).
   */
  function Position(e: Elem, n: nat): (r: Result<Option<nat>, Error>)
    ensures r.Success? && r.value.Some? ==> r.value.value < n
    ensures r.Failure? ==> r.error == IndexError || r.error == TypeError
    ensures e.IntElem? && 0 <= e.i < n ==> r == Success(Some(e.i as nat))
    ensures e.IntElem? && -(n as int) <= e.i < 0 ==> r == Success(Some((e.i + n) as nat))
    ensures e.IntElem? && e.i < -(n as int) ==> r == Failure(IndexError)
    ensures (e.IntElem? && e.i >= n) || (e.FloatElem? && e.r >= n as real) ==> r == Success(None)
    ensures e.OtherElem? || (e.FloatElem? && e.r < n as real) ==> r == Failure(TypeError)
  {
    match e
    case IntElem(i) =>
      if i < n then (if -(n as int) <= i then Success(Some((if i < 0 then i + n else i) as nat)) else Failure(IndexError))
      else Success(None)
    case FloatElem(x) => if x < n as real then Failure(TypeError) else Success(None)
    case OtherElem => Failure(TypeError)
  }

  /** The positions the comprehension picks, in order, or the first exception it meets. */
  function Positions(indices: seq<Elem>, n: nat): (r: Result<seq<nat>, Error>)
    ensures r.Success? ==> |r.value| <= |indices|
    ensures r.Success? ==> forall k :: 0 <= k < |r.value| ==> r.value[k] < n
    ensures r.Failure? ==> r.error == IndexError || r.error == TypeError
  {
    if indices == [] then Success([])
    else
      match Position(indices[0], n)
      case Failure(e) => Failure(e)
      case Success(p) =>
        match Positions(indices[1..], n)
        case Failure(e) => Failure(e)
        case Success(ps) => Success((if p.Some? then [p.value] else []) + ps)
  }

  /** The entries of `xs` at the positions `ps`, in order. */
  function Pick<T>(ps: seq<nat>, xs: seq<T>): (r: seq<T>)
    requires forall k :: 0 <= k < |ps| ==> ps[k] < |xs|
    ensures |r| == |ps| && forall k :: 0 <= k < |ps| ==> r[k] == xs[ps[k]]
  {
    if ps == [] then [] else [xs[ps[0]]] + Pick(ps[1..], xs)
  }

  /** `[xs[i] for i in indices if i < len(xs)]`. */
  function Select<T>(indices: seq<Elem>, xs: seq<T>): (r: Result<seq<T>, Error>)
    ensures r.Success? ==> |r.value| <= |indices|
    ensures r.Failure? ==> r.error == IndexError || r.error == TypeError
  {
    match Positions(indices, |xs|)
    case Failure(e) => Failure(e)
    case Success(ps) => Success(Pick(ps, xs))
  }

  /** The selection fails exactly when some element is one Python cannot compare or index with. */
  lemma {:induction false} PositionsSucceed(indices: seq<Elem>, n: nat)
    ensures Positions(indices, n).Success? <==> forall k :: 0 <= k < |indices| ==> Position(indices[k], n).Success?
  {
    if indices != [] {
      PositionsSucceed(indices[1..], n);
      assert forall k :: 1 <= k < |indices| ==> indices[k] == indices[1..][k - 1];
    }
  }

  /**
   * With in-range non-negative indices the selection is exactly the listed
   * entries, in the listed order, repeated as often as they are listed.
   */
  lemma SelectInRange<T>(indices: seq<Elem>, xs: seq<T>)
    requires forall k :: 0 <= k < |indices| ==> indices[k].IntElem? && 0 <= indices[k].i < |xs|
    ensures Select(indices, xs).Success? && |Select(indices, xs).value| == |indices|
    ensures forall k :: 0 <= k < |indices| ==> Select(indices, xs).value[k] == xs[indices[k].i]
  {
    PositionsInRange(indices, |xs|);
  }

  lemma {:induction false} PositionsInRange(indices: seq<Elem>, n: nat)
    requires forall k :: 0 <= k < |indices| ==> indices[k].IntElem? && 0 <= indices[k].i < n
    ensures Positions(indices, n).Success? && |Positions(indices, n).value| == |indices|
    ensures forall k :: 0 <= k < |indices| ==> Positions(indices, n).value[k] == indices[k].i
  {
    if indices != [] {
      PositionsInRange(indices[1..], n);
      assert Position(indices[0], n) == Success(Some(indices[0].i as nat));
      var rest := Positions(indices[1..], n).value;
      assert Positions(indices, n) == Success([indices[0].i as nat] + rest);
      forall k | 1 <= k < |indices|
        ensures Positions(indices, n).value[k] == indices[k].i
      {
        assert indices[1..][k - 1] == indices[k];
      }
    }
  }

  /** A negative index from `-len` up counts from the end of the candidates. */
  lemma NegativeIndexCountsFromEnd<T>(i: int, xs: seq<T>)
    requires -|xs| <= i < 0
    ensures Select([IntElem(i)], xs) == Success([xs[i + |xs|]])
  {
    var p := (i + |xs|) as nat;
    assert [IntElem(i)][1..] == [];
    assert Positions([IntElem(i)], |xs|) == Success([p] + []);
    assert [p] + [] == [p];
    assert Pick([p], xs) == [xs[p]];
  }

  /**
   * The first element that raises ends the comprehension with its exception,
   * wherever it stands and whatever follows it.
   */
  lemma {:induction false} FirstFailureEscapes(before: seq<Elem>, e: Elem, after: seq<Elem>, n: nat)
    requires Positions(before, n).Success? && Position(e, n).Failure?
    ensures Positions(before + [e] + after, n) == Failure(Position(e, n).error)
  {
    var whole := before + [e] + after;
    if before == [] {
      assert whole[0] == e;
    } else {
      assert whole[0] == before[0];
      assert whole[1..] == before[1..] + [e] + after;
      FirstFailureEscapes(before[1..], e, after, n);
    }
  }

  /**
   * So a float below the length, or an element that cannot be compared with
   * an integer, makes the selection raise `TypeError` once the elements before
   * it are usable; an index below `-len` makes it raise `IndexError`.
   */
  lemma SelectRaises<T>(before: seq<Elem>, e: Elem, after: seq<Elem>, xs: seq<T>)
    requires Positions(before, |xs|).Success?
    requires e.OtherElem? || (e.FloatElem? && e.r < |xs| as real) || (e.IntElem? && e.i < -|xs|)
    ensures Select(before + [e] + after, xs) == Failure(if e.IntElem? then IndexError else TypeError)
  {
    FirstFailureEscapes(before, e, after, |xs|);
  }

  /** An integer index at or beyond the end is skipped wherever it stands in the list. */
  lemma {:induction false} TooLargeIndexSkipped(before: seq<Elem>, j: int, after: seq<Elem>, n: nat)
    requires j >= n
    ensures Positions(before + [IntElem(j)] + after, n) == Positions(before + after, n)
  {
    var whole := before + [IntElem(j)] + after;
    if before == [] {
      assert whole[0] == IntElem(j);
      assert whole[1..] == after;
      assert before + after == after;
      if Positions(after, n).Success? {
        var ps := Positions(after, n).value;
        assert [] + ps == ps;
      }
    } else {
      assert whole[0] == before[0] == (before + after)[0];
      assert whole[1..] == before[1..] + [IntElem(j)] + after;
      assert (before + after)[1..] == before[1..] + after;
      TooLargeIndexSkipped(before[1..], j, after, n);
    }
  }

  /** `[0, 5]` against two candidates keeps only the first; `-1` picks the last; `-3` raises. */
  lemma SelectExamples<T>(c0: T, c1: T)
    ensures Select([IntElem(0), IntElem(5)], [c0, c1]) == Success([c0])
    ensures Select([IntElem(-1)], [c0, c1]) == Success([c1])
    ensures Select([IntElem(-3)], [c0, c1]) == Failure(IndexError)
  {
    assert [IntElem(0), IntElem(5)][1..] == [IntElem(5)];
    assert [IntElem(5)][1..] == [] && [IntElem(-1)][1..] == [] && [IntElem(-3)][1..] == [];
    assert Positions([IntElem(5)], 2) == Success([]);
    assert Position(IntElem(0), 2) == Success(Some(0));
    assert [0 as nat] + [] == [0];
    assert Positions([IntElem(0), IntElem(5)], 2) == Success([0]);
    assert Position(IntElem(-1), 2) == Success(Some(1));
    assert [1 as nat] + [] == [1];
    assert Positions([IntElem(-1)], 2) == Success([1]);
    assert Pick([0], [c0, c1]) == [c0];
    assert Pick([1], [c0, c1]) == [c1];
  }

  // ---------------------------------------------------------------------
  // _filter_relevant_docs
  // ---------------------------------------------------------------------

  /** One entry of the re-rank listing: the candidate's zero-based index in brackets, then its text. */
  function ListingEntry(i: nat, chunk: string): string
  {
    "[" + NatToString(i) + "] " + chunk
  }

  /** The zero-indexed listing `"[i] chunk"` of the candidates, separated by blank lines. */
  function Listing(chunks: seq<string>): string
  {
    Join(seq(|chunks|, i requires 0 <= i < |chunks| => ListingEntry(i, chunks[i])), "\n\n")
  }

  /**
   * The listing grows one entry per candidate: a single candidate is listed
   * as `[0] chunk`, and each further candidate adds a blank line and its
   * entry numbered by its position.
   */
  lemma ListingAppend(chunks: seq<string>, chunk: string)
    ensures chunks == [] ==> Listing(chunks + [chunk]) == "[0] " + chunk
    ensures chunks != [] ==> Listing(chunks + [chunk]) == Listing(chunks) + "\n\n" + ListingEntry(|chunks|, chunk)
  {
    var all := chunks + [chunk];
    var entries := seq(|chunks|, i requires 0 <= i < |chunks| => ListingEntry(i, chunks[i]));
    var allEntries := seq(|all|, i requires 0 <= i < |all| => ListingEntry(i, all[i]));
    assert allEntries == entries + [ListingEntry(|chunks|, chunk)];
    if chunks == [] {
      assert NatToString(0) == "0";
      assert "[" + "0" + "] " == "[0] ";
    } else {
      JoinAppend(entries, [ListingEntry(|chunks|, chunk)], "\n\n");
    }
  }

  /** The parsed index list: a decoded list, or `[]` when the answer is not JSON or not a list. */
  function RelevantIndices(d: Decoded): seq<Elem>
  {
    match d
    case JsonList(es) => es
    case _ => []
  }

  /** `retrieved_docs.get("documents", [[]])`, and its first batch when there is one. */
  function Candidates(retrieved: QueryResult): seq<string>
  {
    var docs := retrieved.documents.GetOr([[]]);
    if docs == [] then [] else docs[0]
  }

  /** The re-rank prompt for the candidates. */
  function RerankPrompt(queryText: string, candidates: seq<string>, svc: Services): string
  {
    svc.rerankTemplate.Fill(queryText, Listing(candidates))
  }

  /**
   * `_filter_relevant_docs(retrieved_docs, query_text)`: no candidate gives
   * the empty selection without any call; otherwise exactly one re-rank
   * generation is made, and the selection never holds more documents than
   * there are candidates or than the parsed list has elements. Only
   * `IndexError`, `TypeError` and a failure of the model can escape.
   */
  function FilterRelevantDocs(retrieved: QueryResult, queryText: string, svc: Services): (s: Stage<Filtered>)
    ensures Candidates(retrieved) == [] <==> s.calls == []
    ensures Candidates(retrieved) == [] ==> s.result == Success(Filtered([], []))
    ensures Candidates(retrieved) != [] ==> s.calls == [Generate(RerankPrompt(queryText, Candidates(retrieved), svc))]
    ensures s.result.Failure? ==> !s.result.error.ValueError?
  {
    var docs := retrieved.documents.GetOr([[]]);
    var metas := retrieved.metadatas.GetOr([[]]);
    if docs == [] || docs[0] == [] then Stage(Success(Filtered([], [])), [])
    else
      var prompt := RerankPrompt(queryText, docs[0], svc);
      var calls := [Generate(prompt)];
      match svc.generate(prompt)
      case Failure(m) => Stage(Failure(ServiceError(m)), calls)
      case Success(output) =>
        var indices := RelevantIndices(svc.decode(output));
        match Select(indices, docs[0])
        case Failure(e) => Stage(Failure(e), calls)
        case Success(filteredDocs) =>
          if indices != [] && metas == [] then Stage(Failure(IndexError), calls)
          else
            match Select(indices, if metas == [] then [] else metas[0])
            case Failure(e) => Stage(Failure(e), calls)
            case Success(filteredMetas) => Stage(Success(Filtered(filteredDocs, filteredMetas)), calls)
  }

  // ---------------------------------------------------------------------
  // _build_context_text
  // ---------------------------------------------------------------------

  /** `metadata.get("source", "Unknown file")`, rendered. */
  function SourceLabel(meta: Metadata): string
  {
    if "source" in meta then Render(meta["source"]) else "Unknown file"
  }

  function ContextLine(doc: string, meta: Metadata): string
  {
    "[" + SourceLabel(meta) + "] " + doc
  }

  /**
   * The context block: one `"[source] doc"` line per filtered document,
   * paired with the metadata at the same position, joined by newlines; the
   * marker text when there is no document; `IndexError` when there are fewer
   * metadata entries than documents.
   */
  function ContextText(f: Filtered): Result<string, Error>
  {
    if f.documents == [] then Success(NoContext)
    else if |f.metadatas| < |f.documents| then Failure(IndexError)
    else Success(Join(ContextLines(f), "\n"))
  }

  /** The `"[source] doc"` line of each document, paired with the metadata at its position. */
  function ContextLines(f: Filtered): seq<string>
    requires |f.documents| <= |f.metadatas|
  {
    seq(|f.documents|, i requires 0 <= i < |f.documents| => ContextLine(f.documents[i], f.metadatas[i]))
  }

  /** `_build_context_text`: the loop that appends one line per document. */
  method BuildContextText(f: Filtered) returns (r: Result<string, Error>)
    ensures r == ContextText(f)
  {
    if f.documents == [] {
      return Success(NoContext);
    }
    var lines: seq<string> := [];
    for i := 0 to |f.documents|
      invariant i <= |f.metadatas|
      invariant lines == seq(i, k requires 0 <= k < i => ContextLine(f.documents[k], f.metadatas[k]))
    {
      if i >= |f.metadatas| {
        return Failure(IndexError);
      }
      lines := lines + [ContextLine(f.documents[i], f.metadatas[i])];
    }
    assert lines == ContextLines(f);
    return Success(Join(lines, "\n"));
  }

  /**
   * The context has exactly one line per filtered document, in order, when
   * no document or source holds a newline of its own.
   */
  lemma ContextHasOneLinePerDocument(f: Filtered)
    requires f.documents != [] && |f.documents| <= |f.metadatas|
    requires forall i :: 0 <= i < |f.documents| ==> '\n' !in ContextLine(f.documents[i], f.metadatas[i])
    ensures ContextText(f).Success?
    ensures Split(ContextText(f).value, '\n') == ContextLines(f)
  {
    LinesRoundTrip(ContextLines(f));
  }

  /**
   * For any documents and sources, newlines included, the context's lines
   * are the lines of each document's `"[source] doc"` entry, in document
   * order: a multi-line document contributes all of its lines, and no line
   * is lost or merged with a neighbour.
   */
  lemma ContextLinesOfEachDocument(f: Filtered)
    requires f.documents != [] && |f.documents| <= |f.metadatas|
    ensures ContextText(f).Success?
    ensures Split(ContextText(f).value, '\n') ==
      Concat(seq(|f.documents|, i requires 0 <= i < |f.documents| => Split(ContextLine(f.documents[i], f.metadatas[i]), '\n')))
  {
    var lines := ContextLines(f);
    assert "\n" == ['\n'];
    SplitOfJoin(lines, '\n');
    assert SplitEach(lines, '\n') ==
      seq(|f.documents|, i requires 0 <= i < |f.documents| => Split(ContextLine(f.documents[i], f.metadatas[i]), '\n'));
  }

  /**
   * `"Unknown file"` stands in only for a missing `source` key; an empty
   * source renders as `"[] doc"`.
   */
  lemma SourceLabels(doc: string, meta: Metadata)
    ensures "source" !in meta ==> ContextLine(doc, meta) == "[Unknown file] " + doc
    ensures "source" in meta ==> ContextLine(doc, meta) == "[" + Render(meta["source"]) + "] " + doc
    ensures ContextLine(doc, map["source" := Str("")]) == "[] " + doc
  {
  }

  /**
   * Metadata shorter than the documents breaks the pairing: with two
   * candidates but one metadata entry, selecting index 1 keeps the second
   * document and no metadata, and building the context raises `IndexError`.
   */
  lemma MisalignedMetadataFails(d0: string, d1: string, m0: Metadata)
    ensures Select([IntElem(1)], [d0, d1]) == Success([d1])
    ensures Select([IntElem(1)], [m0]) == Success([])
    ensures ContextText(Filtered([d1], [])) == Failure(IndexError)
  {
    assert [IntElem(1)][1..] == [];
    assert Position(IntElem(1), 2) == Success(Some(1));
    assert [1 as nat] + [] == [1];
    assert Positions([IntElem(1)], 2) == Success([1]);
    assert Pick([1], [d0, d1]) == [d1];
    assert Positions([IntElem(1)], 1) == Success([]);
  }

  /**
   * When every parsed index is an in-range non-negative integer and the
   * metadata batch is as long as the document batch, the selection keeps
   * documents and metadata paired: entry `k` of each is the one at the
   * `k`-th parsed index.
   */
  lemma AlignedSelection(retrieved: QueryResult, queryText: string, svc: Services, output: string)
    requires retrieved.documents.Some? && |retrieved.documents.value| >= 1 && retrieved.documents.value[0] != []
    requires retrieved.metadatas.Some? && |retrieved.metadatas.value| >= 1
    requires |retrieved.metadatas.value[0]| == |retrieved.documents.value[0]|
    requires svc.generate(RerankPrompt(queryText, retrieved.documents.value[0], svc)) == Success(output)
    requires var indices := RelevantIndices(svc.decode(output));
      forall k :: 0 <= k < |indices| ==> indices[k].IntElem? && 0 <= indices[k].i < |retrieved.documents.value[0]|
    ensures var s := FilterRelevantDocs(retrieved, queryText, svc);
      var indices := RelevantIndices(svc.decode(output));
      s.result.Success? && |s.result.value.documents| == |s.result.value.metadatas| == |indices| &&
      forall k :: 0 <= k < |indices| ==>
        s.result.value.documents[k] == retrieved.documents.value[0][indices[k].i] &&
        s.result.value.metadatas[k] == retrieved.metadatas.value[0][indices[k].i]
  {
    var indices := RelevantIndices(svc.decode(output));
    SelectInRange(indices, retrieved.documents.value[0]);
    SelectInRange(indices, retrieved.metadatas.value[0]);
  }

  /** An answer that is not JSON, or not a list, selects nothing and raises nothing. */
  lemma UnusableAnswerSelectsNothing(retrieved: QueryResult, queryText: string, svc: Services, output: string)
    requires Candidates(retrieved) != []
    requires svc.generate(RerankPrompt(queryText, Candidates(retrieved), svc)) == Success(output)
    requires svc.decode(output) == NotJson || svc.decode(output) == NotAList
    ensures FilterRelevantDocs(retrieved, queryText, svc).result == Success(Filtered([], []))
  {
    assert Positions([], |Candidates(retrieved)|) == Success([]);
  }

  // ---------------------------------------------------------------------
  // _extract_references
  // ---------------------------------------------------------------------

  /** `metadata.get("source")` is `v`. */
  predicate Names(meta: Metadata, v: MetaValue)
  {
    "source" in meta && meta["source"] == v
  }

  /** The position of the first metadata naming `v`, or `|metas|` when none does. */
  function FirstAt(metas: seq<Metadata>, v: MetaValue): (f: nat)
    ensures f <= |metas|
    ensures f < |metas| ==> Names(metas[f], v)
    ensures forall p :: 0 <= p < f ==> !Names(metas[p], v)
  {
    if metas == [] then 0
    else
      var f := FirstAt(metas[..|metas| - 1], v);
      if f < |metas| - 1 then f
      else if Names(metas[|metas| - 1], v) then |metas| - 1
      else |metas|
  }

  /** The truthy sources of `metas`, each kept once, in the order of their first appearance. */
  function References(metas: seq<Metadata>): seq<MetaValue>
  {
    if metas == [] then []
    else
      var prior := References(metas[..|metas| - 1]);
      var meta := metas[|metas| - 1];
      if "source" in meta && Truthy(meta["source"]) && meta["source"] !in prior then prior + [meta["source"]]
      else prior
  }

  /** `_extract_references`: the loop that appends each new truthy source. */
  method ExtractReferences(metas: seq<Metadata>) returns (sources: seq<MetaValue>)
    ensures sources == References(metas)
  {
    if metas == [] {
      return [];
    }
    sources := [];
    for i := 0 to |metas|
      invariant sources == References(metas[..i])
    {
      assert metas[..i + 1][..i] == metas[..i];
      var source: Option<MetaValue> := if "source" in metas[i] then Some(metas[i]["source"]) else None;
      if source.Some? && Truthy(source.value) && source.value !in sources {
        sources := sources + [source.value];
      }
    }
    assert metas[..|metas|] == metas;
  }

  /** Every reference is truthy and is the source of some filtered metadata. */
  lemma {:induction false} ReferencesAreSources(metas: seq<Metadata>)
    ensures forall k :: 0 <= k < |References(metas)| ==>
      Truthy(References(metas)[k]) && FirstAt(metas, References(metas)[k]) < |metas|
  {
    if metas != [] {
      var pre := metas[..|metas| - 1];
      ReferencesAreSources(pre);
      forall k | 0 <= k < |References(metas)|
        ensures Truthy(References(metas)[k]) && FirstAt(metas, References(metas)[k]) < |metas|
      {
        if k < |References(pre)| {
          assert References(metas)[k] == References(pre)[k];
        }
      }
    }
  }

  /** Every truthy source of the filtered metadata is among the references. */
  lemma {:induction false} ReferencesAreComplete(metas: seq<Metadata>)
    ensures forall p :: 0 <= p < |metas| && "source" in metas[p] && Truthy(metas[p]["source"]) ==>
      metas[p]["source"] in References(metas)
  {
    if metas != [] {
      var pre := metas[..|metas| - 1];
      ReferencesAreComplete(pre);
      forall p | 0 <= p < |metas| && "source" in metas[p] && Truthy(metas[p]["source"])
        ensures metas[p]["source"] in References(metas)
      {
        if p < |pre| {
          assert pre[p] == metas[p];
        }
      }
    }
  }

  /** No source is listed twice. */
  lemma {:induction false} ReferencesAreDistinct(metas: seq<Metadata>)
    ensures forall i, j :: 0 <= i < j < |References(metas)| ==> References(metas)[i] != References(metas)[j]
  {
    if metas != [] {
      ReferencesAreDistinct(metas[..|metas| - 1]);
    }
  }

  /** References are numbered by the first appearance of their source. */
  lemma {:induction false} ReferencesInFirstSeenOrder(metas: seq<Metadata>)
    ensures forall i, j :: 0 <= i < j < |References(metas)| ==>
      FirstAt(metas, References(metas)[i]) < FirstAt(metas, References(metas)[j])
  {
    if metas != [] {
      var pre := metas[..|metas| - 1];
      var prior := References(pre);
      ReferencesInFirstSeenOrder(pre);
      ReferencesAreSources(pre);
      ReferencesAreComplete(pre);
      forall i, j | 0 <= i < j < |References(metas)|
        ensures FirstAt(metas, References(metas)[i]) < FirstAt(metas, References(metas)[j])
      {
        assert References(metas)[i] == prior[i];
        if j < |prior| {
          assert References(metas)[j] == prior[j];
        } else {
          var v := References(metas)[j];
          assert v !in prior;
        }
      }
    }
  }

  /** Sources `a.txt`, `a.txt`, `b.txt` give the references `a.txt`, `b.txt`. */
  lemma DuplicateSourcesCollapse()
    ensures References([map["source" := Str("a.txt")], map["source" := Str("a.txt")], map["source" := Str("b.txt")]])
      == [Str("a.txt"), Str("b.txt")]
  {
    var a: Metadata := map["source" := Str("a.txt")];
    var b: Metadata := map["source" := Str("b.txt")];
    var metas := [a, a, b];
    assert [a][..0] == [];
    assert References([a]) == [Str("a.txt")];
    assert [a, a][..1] == [a];
    assert References([a, a]) == [Str("a.txt")];
    assert metas[..2] == [a, a];
  }

  // ---------------------------------------------------------------------
  // _build_prompt and the references block
  // ---------------------------------------------------------------------

  function TranscriptLine(m: Message): string
  {
    RoleTitle(m.msgType) + ": " + m.content
  }

  /** The conversation, one `"Role: content"` line per message, joined by newlines. */
  function Transcript(messages: seq<Message>): string
  {
    Join(seq(|messages|, i requires 0 <= i < |messages| => TranscriptLine(messages[i])), "\n")
  }

  /** `_build_prompt(context, messages)`. */
  function BuildPrompt(context: string, messages: seq<Message>, template: Template): string
  {
    template.Fill(context, Transcript(messages))
  }

  /**
   * For any history, including answers that carry a references block, the
   * transcript's lines are the lines of each `"Role: content"` entry, in
   * history order; an empty history gives one empty line.
   */
  lemma TranscriptLinesOfEachMessage(messages: seq<Message>)
    ensures messages == [] ==> Split(Transcript(messages), '\n') == [""]
    ensures messages != [] ==>
      Split(Transcript(messages), '\n') ==
      Concat(seq(|messages|, i requires 0 <= i < |messages| => Split(TranscriptLine(messages[i]), '\n')))
  {
    var lines := seq(|messages|, i requires 0 <= i < |messages| => TranscriptLine(messages[i]));
    if messages == [] {
      assert Transcript(messages) == "";
    } else {
      assert "\n" == ['\n'];
      SplitOfJoin(lines, '\n');
      assert SplitEach(lines, '\n') ==
        seq(|messages|, i requires 0 <= i < |messages| => Split(TranscriptLine(messages[i]), '\n'));
    }
  }

  /** The transcript has one line per message, in history order, when no content holds a newline. */
  lemma TranscriptHasOneLinePerMessage(messages: seq<Message>)
    requires messages != []
    requires forall i :: 0 <= i < |messages| ==> '\n' !in messages[i].content
    ensures Split(Transcript(messages), '\n') == seq(|messages|, i requires 0 <= i < |messages| => TranscriptLine(messages[i]))
  {
    var lines := seq(|messages|, i requires 0 <= i < |messages| => TranscriptLine(messages[i]));
    forall i | 0 <= i < |lines|
      ensures '\n' !in lines[i]
    {
      assert lines[i] == RoleTitle(messages[i].msgType) + ": " + messages[i].content;
    }
    LinesRoundTrip(lines);
  }

  function ReferenceLine(number: nat, ref: MetaValue): string
  {
    "[" + NatToString(number) + "] " + Render(ref)
  }

  /** The 1-based `"[n] source"` lines of the references. */
  function ReferenceLines(refs: seq<MetaValue>): seq<string>
  {
    seq(|refs|, i requires 0 <= i < |refs| => ReferenceLine(i + 1, refs[i]))
  }

  /** `"\n\nReferences:\n"` followed by the numbered references, one per line. */
  function ReferencesBlock(refs: seq<MetaValue>): string
  {
    "\n\nReferences:\n" + Join(ReferenceLines(refs), "\n")
  }

  /** The generated text, followed by the references block exactly when there is a reference. */
  function Annotate(text: string, refs: seq<MetaValue>): (r: string)
    ensures refs == [] ==> r == text
    ensures refs != [] ==> r == text + ReferencesBlock(refs) && |r| > |text|
  {
    if refs == [] then text else text + ReferencesBlock(refs)
  }

  /**
   * Read line by line, an annotated answer is the answer's own lines, a
   * blank line, the `References:` heading and one numbered line per
   * reference.
   */
  lemma AnnotatedLines(text: string, refs: seq<MetaValue>)
    requires refs != []
    requires forall i :: 0 <= i < |refs| ==> '\n' !in Render(refs[i])
    ensures Split(Annotate(text, refs), '\n') == Split(text, '\n') + ["", "References:"] + ReferenceLines(refs)
  {
    var lines := ReferenceLines(refs);
    var tail := ["", "References:"] + lines;
    var own := Split(text, '\n');
    ReferenceLinesAreSingleLines(refs);
    AnnotateJoinsLines(text, refs);
    assert [text, "", "References:"] + lines == [text] + tail;
    JoinAppend([text], tail, "\n");
    JoinAppend(own, tail, "\n");
    assert "\n" == ['\n'];
    assert Join(own, "\n") == text;
    assert own + tail == own + ["", "References:"] + lines;
    forall k | 0 <= k < |own + tail|
      ensures '\n' !in (own + tail)[k]
    {
      if k >= |own| + 2 {
        assert (own + tail)[k] == lines[k - |own| - 2];
      }
    }
    LinesRoundTrip(own + tail);
  }

  lemma ReferenceLinesAreSingleLines(refs: seq<MetaValue>)
    requires forall i :: 0 <= i < |refs| ==> '\n' !in Render(refs[i])
    ensures forall i :: 0 <= i < |refs| ==> '\n' !in ReferenceLines(refs)[i]
  {
    forall i | 0 <= i < |refs|
      ensures '\n' !in ReferenceLines(refs)[i]
    {
      var digits := NatToString(i + 1);
      assert ReferenceLines(refs)[i] == "[" + digits + "] " + Render(refs[i]);
      assert forall c :: c in digits ==> IsDigit(c);
    }
  }

  lemma AnnotateJoinsLines(text: string, refs: seq<MetaValue>)
    requires refs != []
    ensures Annotate(text, refs) == Join([text, "", "References:"] + ReferenceLines(refs), "\n")
  {
    var lines := ReferenceLines(refs);
    assert |lines| == |refs|;
    HeadedJoin(text, lines);
  }

  /** Joining the answer, the blank line, the heading and the reference lines gives the answer and the block. */
  lemma HeadedJoin(text: string, lines: seq<string>)
    requires lines != []
    ensures Join([text, "", "References:"] + lines, "\n") == text + ("\n\nReferences:\n" + Join(lines, "\n"))
  {
    var body := Join(lines, "\n");
    JoinAfterThree(text, "", "References:", lines, "\n");
    HeadingLines();
    assert text + "\n\nReferences:\n" + body == text + ("\n\nReferences:\n" + body);
  }

  /** The heading of the references block is a blank line and the `References:` line. */
  lemma HeadingLines()
    ensures "\n" + "" + "\n" + "References:" + "\n" == "\n\nReferences:\n"
  {
  }

  // ---------------------------------------------------------------------
  // invoke
  // ---------------------------------------------------------------------

  const EmptyHistory: string := "Message history cannot be empty."

  const NotFromUser: string := "The last message must be from the user."

  /**
   * The part of `invoke` after the selection: the apology when nothing was
   * selected, otherwise one generation from the chat prompt, annotated with
   * the references of the selection.
   */
  function Answer(selection: Result<Filtered, Error>, messages: seq<Message>, svc: Services): (s: Stage<Message>)
    ensures CountGenerate(s.calls) == |s.calls| <= 1
    ensures s.result.Success? ==> s.result.value.msgType == Ai
    ensures s.result.Success? && s.result.value.content != Apology ==> |s.calls| == 1
    ensures selection.Success? && selection.value.documents == [] ==> s == Stage(Success(Message(Ai, Apology)), [])
    ensures s.result.Failure? && s.result.error.ValueError? ==> selection == Failure(s.result.error)
  {
    match selection
    case Failure(e) => Stage(Failure(e), [])
    case Success(f) =>
      if f.documents == [] then Stage(Success(Message(Ai, Apology)), [])
      else
        match ContextText(f)
        case Failure(e) => Stage(Failure(e), [])
        case Success(context) =>
          var prompt := BuildPrompt(context, messages, svc.chatTemplate);
          match svc.generate(prompt)
          case Failure(m) => Stage(Failure(ServiceError(m)), [Generate(prompt)])
          case Success(text) => Stage(Success(Message(Ai, Annotate(text, References(f.metadatas)))), [Generate(prompt)])
  }

  /**
   * `invoke(messages, top_k)`: validate the history, embed the last user
   * message, query the store, re-rank, and answer.
   */
  function Respond(messages: seq<Message>, topK: int, svc: Services): Stage<Message>
  {
    if messages == [] then Stage(Failure(ValueError(EmptyHistory)), [])
    else if messages[|messages| - 1].msgType != User then Stage(Failure(ValueError(NotFromUser)), [])
    else
      var queryText := messages[|messages| - 1].content;
      var embedCalls := [EmbedTexts([queryText])];
      match svc.embedTexts([queryText])
      case Failure(m) => Stage(Failure(ServiceError(m)), embedCalls)
      case Success(vectors) =>
        if vectors == [] then Stage(Failure(IndexError), embedCalls)
        else
          var queryCalls := embedCalls + [QuerySimilar(vectors[0], topK)];
          match svc.querySimilar(vectors[0], topK)
          case Failure(m) => Stage(Failure(ServiceError(m)), queryCalls)
          case Success(retrieved) =>
            var rest := Rerank(retrieved, queryText, messages, svc);
            Stage(rest.result, queryCalls + rest.calls)
  }

  /** What follows the retrieval: the re-rank, then the answer from the selection. */
  function Rerank(retrieved: QueryResult, queryText: string, messages: seq<Message>, svc: Services): Stage<Message>
  {
    var filtered := FilterRelevantDocs(retrieved, queryText, svc);
    var answered := Answer(filtered.result, messages, svc);
    Stage(answered.result, filtered.calls + answered.calls)
  }

  /** `invoke`, in its own sequential form; `calls` records the collaborator calls. */
  method Invoke(messages: seq<Message>, topK: int, svc: Services) returns (r: Result<Message, Error>, ghost calls: seq<Call>)
    ensures Stage(r, calls) == Respond(messages, topK, svc)
  {
    calls := [];
    if messages == [] {
      return Failure(ValueError(EmptyHistory)), calls;
    }
    var lastMessage := messages[|messages| - 1];
    if lastMessage.msgType != User {
      return Failure(ValueError(NotFromUser)), calls;
    }
    var queryText := lastMessage.content;
    calls := calls + [EmbedTexts([queryText])];
    var embedded := svc.embedTexts([queryText]);
    if embedded.Failure? {
      return Failure(ServiceError(embedded.error)), calls;
    }
    if embedded.value == [] {
      return Failure(IndexError), calls;
    }
    var queryEmbedding := embedded.value[0];
    calls := calls + [QuerySimilar(queryEmbedding, topK)];
    var retrieved := svc.querySimilar(queryEmbedding, topK);
    if retrieved.Failure? {
      return Failure(ServiceError(retrieved.error)), calls;
    }
    var answer, restCalls := RerankAndAnswer(retrieved.value, queryText, messages, svc);
    calls := calls + restCalls;
    return answer, calls;
  }

  /** The re-rank step of `invoke` and the answer from its selection, in sequential form. */
  method RerankAndAnswer(retrieved: QueryResult, queryText: string, messages: seq<Message>, svc: Services)
    returns (r: Result<Message, Error>, ghost calls: seq<Call>)
    ensures Stage(r, calls) == Rerank(retrieved, queryText, messages, svc)
  {
    var filtered := FilterRelevantDocs(retrieved, queryText, svc);
    calls := filtered.calls;
    if filtered.result.Failure? {
      assert calls + [] == calls;
      return Failure(filtered.result.error), calls;
    }
    var answer, answerCalls := AnswerWith(filtered.result.value, messages, svc);
    calls := calls + answerCalls;
    return answer, calls;
  }

  /** The rest of `invoke` once the selection is made, in sequential form. */
  method AnswerWith(f: Filtered, messages: seq<Message>, svc: Services) returns (r: Result<Message, Error>, ghost calls: seq<Call>)
    ensures Stage(r, calls) == Answer(Success(f), messages, svc)
  {
    calls := [];
    if f.documents == [] {
      return Success(Message(Ai, Apology)), calls;
    }
    var contextText := BuildContextText(f);
    if contextText.Failure? {
      return Failure(contextText.error), calls;
    }
    var references := ExtractReferences(f.metadatas);
    var prompt := BuildPrompt(contextText.value, messages, svc.chatTemplate);
    calls := calls + [Generate(prompt)];
    var generated := svc.generate(prompt);
    if generated.Failure? {
      return Failure(ServiceError(generated.error)), calls;
    }
    var aiResponse := generated.value;
    if references != [] {
      aiResponse := aiResponse + ReferencesBlock(references);
    }
    return Success(Message(Ai, aiResponse)), calls;
  }

  /** Only an invalid history raises `ValueError`, and it does so before any call. */
  lemma HistoryIsValidatedFirst(messages: seq<Message>, topK: int, svc: Services)
    ensures var s := Respond(messages, topK, svc);
      (s.result.Failure? && s.result.error.ValueError?) <==> (messages == [] || messages[|messages| - 1].msgType != User)
    ensures messages == [] ==> Respond(messages, topK, svc) == Stage(Failure(ValueError(EmptyHistory)), [])
    ensures messages != [] && messages[|messages| - 1].msgType != User ==>
      Respond(messages, topK, svc) == Stage(Failure(ValueError(NotFromUser)), [])
  {
  }

  /** When the store returns no candidate, the apology comes back and the model is never called. */
  lemma NothingRetrievedGivesApology(messages: seq<Message>, topK: int, svc: Services, e: Embedding, retrieved: QueryResult)
    requires messages != [] && messages[|messages| - 1].msgType == User
    requires svc.embedTexts([messages[|messages| - 1].content]) == Success([e])
    requires svc.querySimilar(e, topK) == Success(retrieved)
    requires Candidates(retrieved) == []
    ensures Respond(messages, topK, svc) ==
      Stage(Success(Message(Ai, Apology)), [EmbedTexts([messages[|messages| - 1].content]), QuerySimilar(e, topK)])
    ensures CountGenerate(Respond(messages, topK, svc).calls) == 0
  {
    var calls := [EmbedTexts([messages[|messages| - 1].content]), QuerySimilar(e, topK)];
    assert calls + [] + [] == calls;
    assert CountGenerate(calls[1..]) == 0;
  }

  /**
   * When the re-rank answer is not JSON or not a list, the apology comes back
   * after exactly one generation, the re-rank itself.
   */
  lemma UnusableRerankGivesApology(messages: seq<Message>, topK: int, svc: Services, e: Embedding, retrieved: QueryResult, output: string)
    requires messages != [] && messages[|messages| - 1].msgType == User
    requires svc.embedTexts([messages[|messages| - 1].content]) == Success([e])
    requires svc.querySimilar(e, topK) == Success(retrieved)
    requires Candidates(retrieved) != []
    requires svc.generate(RerankPrompt(messages[|messages| - 1].content, Candidates(retrieved), svc)) == Success(output)
    requires svc.decode(output) == NotJson || svc.decode(output) == NotAList
    ensures Respond(messages, topK, svc).result == Success(Message(Ai, Apology))
    ensures CountGenerate(Respond(messages, topK, svc).calls) == 1
  {
    var queryText := messages[|messages| - 1].content;
    UnusableAnswerSelectsNothing(retrieved, queryText, svc, output);
    var first := [EmbedTexts([queryText]), QuerySimilar(e, topK)];
    var rerank := [Generate(RerankPrompt(queryText, Candidates(retrieved), svc))];
    var filtered := FilterRelevantDocs(retrieved, queryText, svc);
    assert filtered.calls == rerank;
    assert Answer(filtered.result, messages, svc).calls == [];
    assert [EmbedTexts([queryText])] + [QuerySimilar(e, topK)] == first;
    assert Respond(messages, topK, svc).calls == first + rerank + [];
    assert first + rerank + [] == first + rerank;
    CountGenerateAppend(first, rerank);
    assert CountGenerate(first[1..]) == 0;
    assert CountGenerate(rerank[1..]) == 0;
  }

  /**
   * At most two generations are made; an answer other than the apology
   * always took two (the re-rank and the answer), and every answer is an AI
   * message.
   */
  lemma GenerationCount(messages: seq<Message>, topK: int, svc: Services)
    ensures CountGenerate(Respond(messages, topK, svc).calls) <= 2
    ensures Respond(messages, topK, svc).result.Success? ==> Respond(messages, topK, svc).result.value.msgType == Ai
    ensures var s := Respond(messages, topK, svc);
      s.result.Success? && s.result.value.content != Apology ==> CountGenerate(s.calls) == 2
  {
    if messages != [] && messages[|messages| - 1].msgType == User {
      var queryText := messages[|messages| - 1].content;
      var embedded := svc.embedTexts([queryText]);
      if embedded.Success? && embedded.value != [] {
        var e := embedded.value[0];
        var first := [EmbedTexts([queryText]), QuerySimilar(e, topK)];
        assert CountGenerate(first) == 0 by {
          assert CountGenerate(first[1..]) == 0;
        }
        if svc.querySimilar(e, topK).Success? {
          var retrieved := svc.querySimilar(e, topK).value;
          RespondAfterRetrieval(messages, topK, svc, e, retrieved);
          RerankCount(retrieved, queryText, messages, svc);
          CountGenerateAppend(first, Rerank(retrieved, queryText, messages, svc).calls);
        } else {
          assert Respond(messages, topK, svc).calls == first;
        }
      } else {
        assert CountGenerate([EmbedTexts([queryText])]) == 0;
      }
    }
  }

  /** The re-rank and the answer make at most two generations, and two for any answer but the apology. */
  lemma RerankCount(retrieved: QueryResult, queryText: string, messages: seq<Message>, svc: Services)
    ensures var s := Rerank(retrieved, queryText, messages, svc);
      CountGenerate(s.calls) <= 2 &&
      (s.result.Success? ==> s.result.value.msgType == Ai) &&
      (s.result.Success? && s.result.value.content != Apology ==> CountGenerate(s.calls) == 2)
  {
    var filtered := FilterRelevantDocs(retrieved, queryText, svc);
    var answered := Answer(filtered.result, messages, svc);
    CountGenerateAppend(filtered.calls, answered.calls);
    if filtered.calls != [] {
      assert CountGenerate(filtered.calls) == 1 by {
        assert filtered.calls[1..] == [];
      }
    }
  }

  /**
   * One user question, two candidates with sources `bsod_en.txt` and
   * `bsod_vi.txt`, a re-rank answer listing both: the answer is the
   * generated text followed by both references, numbered from 1.
   */
  lemma BlueScreenScenario(svc: Services, e: Embedding, c0: string, c1: string, rerankAnswer: string)
    requires svc.embedTexts(["How do I fix a blue screen?"]) == Success([e])
    requires svc.querySimilar(e, 3) == Success(QueryResult(
      Some([[c0, c1]]), Some([[map["source" := Str("bsod_en.txt")], map["source" := Str("bsod_vi.txt")]]])))
    requires svc.generate(RerankPrompt("How do I fix a blue screen?", [c0, c1], svc)) == Success(rerankAnswer)
    requires svc.decode(rerankAnswer) == JsonList([IntElem(0), IntElem(1)])
    requires svc.generate(BuildPrompt("[" + "bsod_en.txt" + "] " + c0 + "\n" + "[" + "bsod_vi.txt" + "] " + c1,
      [Message(User, "How do I fix a blue screen?")], svc.chatTemplate)) == Success("Try updating your drivers.")
    ensures Respond([Message(User, "How do I fix a blue screen?")], 3, svc).result ==
      Success(Message(Ai, "Try updating your drivers." + "\n\nReferences:\n[1] " + "bsod_en.txt" + "\n[2] " + "bsod_vi.txt"))
  {
    assert "bsod_en.txt"[5] != "bsod_vi.txt"[5];
    QuestionWithTwoSources("How do I fix a blue screen?", svc, e, c0, c1, "bsod_en.txt", "bsod_vi.txt",
      rerankAnswer, "Try updating your drivers.");
  }

  /**
   * The scenario for any question `q`, candidates from distinct non-empty
   * sources `a` and `b`, and any generated text.
   */
  lemma QuestionWithTwoSources(q: string, svc: Services, e: Embedding, c0: string, c1: string, a: string, b: string,
                               rerankAnswer: string, text: string)
    requires a != "" && b != "" && a != b
    requires svc.embedTexts([q]) == Success([e])
    requires svc.querySimilar(e, 3) == Success(QueryResult(
      Some([[c0, c1]]), Some([[map["source" := Str(a)], map["source" := Str(b)]]])))
    requires svc.generate(RerankPrompt(q, [c0, c1], svc)) == Success(rerankAnswer)
    requires svc.decode(rerankAnswer) == JsonList([IntElem(0), IntElem(1)])
    requires svc.generate(BuildPrompt("[" + a + "] " + c0 + "\n" + "[" + b + "] " + c1,
      [Message(User, q)], svc.chatTemplate)) == Success(text)
    ensures Respond([Message(User, q)], 3, svc).result ==
      Success(Message(Ai, text + "\n\nReferences:\n[1] " + a + "\n[2] " + b))
  {
    var ma: Metadata := map["source" := Str(a)];
    var mb: Metadata := map["source" := Str(b)];
    var retrieved := QueryResult(Some([[c0, c1]]), Some([[ma, mb]]));
    var messages := [Message(User, q)];
    BothCandidatesSelected(q, svc, c0, c1, ma, mb, rerankAnswer);
    RespondAfterRetrieval(messages, 3, svc, e, retrieved);
    AnswerWithTwoSources(messages, svc, c0, c1, a, b, text);
  }

  /** Past a successful embedding and query, the outcome is that of the selection and the answer. */
  lemma RespondAfterRetrieval(messages: seq<Message>, topK: int, svc: Services, e: Embedding, retrieved: QueryResult)
    requires messages != [] && messages[|messages| - 1].msgType == User
    requires var embedded := svc.embedTexts([messages[|messages| - 1].content]);
      embedded.Success? && embedded.value != [] && embedded.value[0] == e
    requires svc.querySimilar(e, topK) == Success(retrieved)
    ensures var queryText := messages[|messages| - 1].content;
      var rest := Rerank(retrieved, queryText, messages, svc);
      Respond(messages, topK, svc) == Stage(rest.result, [EmbedTexts([queryText]), QuerySimilar(e, topK)] + rest.calls)
    ensures Respond(messages, topK, svc).result ==
      Answer(FilterRelevantDocs(retrieved, messages[|messages| - 1].content, svc).result, messages, svc).result
  {
    var queryText := messages[|messages| - 1].content;
    assert [EmbedTexts([queryText])] + [QuerySimilar(e, topK)] == [EmbedTexts([queryText]), QuerySimilar(e, topK)];
  }

  lemma BothCandidatesSelected(q: string, svc: Services, c0: string, c1: string, en: Metadata, vi: Metadata, rerankAnswer: string)
    requires svc.generate(RerankPrompt(q, [c0, c1], svc)) == Success(rerankAnswer)
    requires svc.decode(rerankAnswer) == JsonList([IntElem(0), IntElem(1)])
    ensures FilterRelevantDocs(QueryResult(Some([[c0, c1]]), Some([[en, vi]])), q, svc).result
      == Success(Filtered([c0, c1], [en, vi]))
  {
    var retrieved := QueryResult(Some([[c0, c1]]), Some([[en, vi]]));
    AlignedSelection(retrieved, q, svc, rerankAnswer);
    var f := FilterRelevantDocs(retrieved, q, svc).result.value;
    assert f.documents == [c0, c1];
    assert f.metadatas == [en, vi];
  }

  /**
   * Two selected documents with distinct non-empty sources `a` and `b`: the
   * answer is the generated text followed by `[1] a` and `[2] b`.
   */
  lemma AnswerWithTwoSources(messages: seq<Message>, svc: Services, c0: string, c1: string, a: string, b: string, text: string)
    requires a != "" && b != "" && a != b
    requires svc.generate(BuildPrompt("[" + a + "] " + c0 + "\n" + "[" + b + "] " + c1, messages, svc.chatTemplate)) == Success(text)
    ensures Answer(Success(Filtered([c0, c1], [map["source" := Str(a)], map["source" := Str(b)]])), messages, svc).result
      == Success(Message(Ai, text + "\n\nReferences:\n[1] " + a + "\n[2] " + b))
  {
    var ma: Metadata := map["source" := Str(a)];
    var mb: Metadata := map["source" := Str(b)];
    ContextOfTwo(c0, c1, a, b);
    ReferencesOfTwo(ma, mb, a, b);
    ReferencesBlockOfTwo(a, b);
    assert text + ("\n\nReferences:\n[1] " + a + "\n[2] " + b) == text + "\n\nReferences:\n[1] " + a + "\n[2] " + b;
  }

  lemma ContextOfTwo(c0: string, c1: string, a: string, b: string)
    ensures ContextText(Filtered([c0, c1], [map["source" := Str(a)], map["source" := Str(b)]]))
      == Success("[" + a + "] " + c0 + "\n" + "[" + b + "] " + c1)
  {
    var f := Filtered([c0, c1], [map["source" := Str(a)], map["source" := Str(b)]]);
    var lines := ContextLines(f);
    assert lines == ["[" + a + "] " + c0, "[" + b + "] " + c1];
    assert lines[1..] == ["[" + b + "] " + c1];
    assert Join(lines, "\n") == ("[" + a + "] " + c0) + "\n" + ("[" + b + "] " + c1);
    assert ("[" + a + "] " + c0) + "\n" + ("[" + b + "] " + c1) == "[" + a + "] " + c0 + "\n" + "[" + b + "] " + c1;
  }

  lemma ReferencesOfTwo(ma: Metadata, mb: Metadata, a: string, b: string)
    requires ma == map["source" := Str(a)] && mb == map["source" := Str(b)]
    requires a != "" && b != "" && a != b
    ensures References([ma, mb]) == [Str(a), Str(b)]
  {
    assert [ma, mb][..1] == [ma];
    assert [ma][..0] == [];
    assert References([ma]) == [Str(a)];
  }

  lemma ReferencesBlockOfTwo(a: string, b: string)
    ensures ReferencesBlock([Str(a), Str(b)]) == "\n\nReferences:\n[1] " + a + "\n[2] " + b
  {
    var lines := ReferenceLines([Str(a), Str(b)]);
    assert NatToString(1) == "1" && NatToString(2) == "2";
    assert "[" + "1" + "] " == "[1] " && "[" + "2" + "] " == "[2] ";
    assert lines[0] == "[1] " + a;
    assert lines[1] == "[2] " + b;
    assert lines[1..] == ["[2] " + b];
    assert Join(lines, "\n") == ("[1] " + a) + "\n" + ("[2] " + b);
    assert "\n\nReferences:\n" + (("[1] " + a) + "\n" + ("[2] " + b)) == "\n\nReferences:\n[1] " + a + "\n[2] " + b;
  }
}
