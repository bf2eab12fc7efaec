/**
 * Values shared by the loaders, the ingestion use case and the chat use case:
 * LangChain documents, vector-store metadata, embeddings and the exceptions
 * the core raises.
 */
module Domain {
  import opened Text

  /** A metadata value as the vector store keeps it: a string or an integer. */
  datatype MetaValue = Str(s: string) | Int(i: int)

  /** A metadata dictionary (`dict[str, Any]`). */
  type Metadata = map<string, MetaValue>

  /** A LangChain `Document`: the loaded text and its metadata. */
  datatype Document = Document(pageContent: string, metadata: Metadata)

  /**
   * An embedding vector. Its components are computed by the embedding
   * service and never read by the core, so only equality matters.
   */
  datatype Embedding = Embedding(components: seq<real>)

  /**
   * The exceptions that leave the core: `ValueError` with its message,
   * `IndexError` and `TypeError` raised by Python list indexing and comparison,
   * and whatever a collaborator (loader, chunker, embedding service, vector
   * store, language model) raises, kept as its message.
   */
  datatype Error =
    | ValueError(message: string)
    | IndexError
    | TypeError
    | ServiceError(message: string)

  /** `f"{value}"`: how a metadata value is rendered inside a text. */
  function Render(v: MetaValue): string
  {
    match v
    case Str(s) => s
    case Int(i) => IntToString(i)
  }

  /** Python truthiness of a metadata value: the empty string and 0 are false. */
  predicate Truthy(v: MetaValue)
  {
    match v
    case Str(s) => s != ""
    case Int(i) => i != 0
  }
}
