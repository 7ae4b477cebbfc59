/** Envelopes, payloads and topics: the vocabulary of the bus (pkg/events). */
module Events {
  import opened Wrappers

  datatype EventType =
    | IngestRequested
    | SearchRequested
    | SearchCompleted
    | VisionRequested
    | VisionCompleted
    | ChunkRequested
    | ChunkCompleted
    | EmbedRequested
    | EmbedCompleted
    | Unknown(name: string)

  datatype Topic = Ingress | TaskEmbed | TaskEngine | TaskVision | TaskChunk | Dlq | Reply(corr: string)

  /** float32 vectors are read as exact reals. */
  type Vector = seq<real>

  datatype Chunk = Chunk(chunkId: string, vector: Vector, text: string, blobURI: string, mimeType: string)

  datatype SearchResult = SearchResult(
    documentId: string, chunkId: string, score: real, text: string, blobURI: string, mimeType: string)

  datatype Payload =
    | IngestPayload(documentId: string, contextText: string, blobURI: string, mimeType: string, sizeBytes: int)
    | SearchPayload(queryText: string, blobURI: string, topK: int, mimeType: string)
    | EmbedRequestedPayload(documentId: string, chunkId: string, text: string, blobURI: string, mimeType: string,
                            originalType: EventType)
    | EmbedCompletedPayload(documentId: string, chunks: seq<Chunk>, originalType: EventType, searchTopK: int)
    | SearchCompletedPayload(results: seq<SearchResult>)
    | NoPayload

  datatype Envelope = Envelope(
    correlationId: string, tenantId: string, typ: EventType, source: string, data: Payload)

  /** One entry of the stream's log. */
  datatype Pub = Pub(topic: Topic, env: Envelope)

  // Decoding JSON into another struct copies the fields whose JSON names agree and zeroes the rest.

  function DocumentID(p: Payload): string {
    if p.IngestPayload? || p.EmbedRequestedPayload? || p.EmbedCompletedPayload? then p.documentId else ""
  }

  function BlobURI(p: Payload): string {
    if p.IngestPayload? || p.SearchPayload? || p.EmbedRequestedPayload? then p.blobURI else ""
  }

  function MimeType(p: Payload): string {
    if p.IngestPayload? || p.SearchPayload? || p.EmbedRequestedPayload? then p.mimeType else ""
  }

  function OriginalType(p: Payload): EventType {
    if p.EmbedRequestedPayload? || p.EmbedCompletedPayload? then p.originalType else Unknown("")
  }

  function DecodeIngest(p: Payload): (r: Payload)
    ensures r.IngestPayload? && (p.IngestPayload? ==> r == p)
  {
    if p.IngestPayload? then p else IngestPayload(DocumentID(p), "", BlobURI(p), MimeType(p), 0)
  }

  function DecodeSearch(p: Payload): (r: Payload)
    ensures r.SearchPayload? && (p.SearchPayload? ==> r == p)
  {
    if p.SearchPayload? then p else SearchPayload("", BlobURI(p), 0, MimeType(p))
  }

  function DecodeEmbedRequested(p: Payload): (r: Payload)
    ensures r.EmbedRequestedPayload? && (p.EmbedRequestedPayload? ==> r == p)
  {
    if p.EmbedRequestedPayload? then p
    else EmbedRequestedPayload(DocumentID(p), "", "", BlobURI(p), MimeType(p), OriginalType(p))
  }

  function DecodeEmbedCompleted(p: Payload): (r: Payload)
    ensures r.EmbedCompletedPayload? && (p.EmbedCompletedPayload? ==> r == p)
  {
    if p.EmbedCompletedPayload? then p else EmbedCompletedPayload(DocumentID(p), [], OriginalType(p), 0)
  }

  function DecodeSearchCompleted(p: Payload): seq<SearchResult> {
    if p.SearchCompletedPayload? then p.results else []
  }

  /** The validating constructor: no tenant, no envelope; an empty correlation ID is replaced by a fresh one. */
  function NewEnvelope(tenantId: string, correlationId: string, typ: EventType, source: string, data: Payload,
                       freshCorrelation: string): Option<Envelope>
  {
    if tenantId == "" then None
    else Some(Envelope(if correlationId == "" then freshCorrelation else correlationId, tenantId, typ, source, data))
  }

  /** What a consumer decodes when a worker publishes a nil envelope: the JSON text `null`. */
  const NIL_ENVELOPE := Envelope("", "", Unknown(""), "", NoPayload)

  /** The workers ignore NewEnvelope's error and publish whatever pointer came back. */
  function OrNil(e: Option<Envelope>): Envelope {
    if e.Some? then e.value else NIL_ENVELOPE
  }
}
