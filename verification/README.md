# Verification of the indexing and search pipeline

The platform ingests documents and answers searches over an event bus. The gateway announces each request on an ingress
topic; the router forwards it to the vision worker, the chunker or the embedder; workers publish derived events back to
ingress; the engine writes the vector index or replies on a per-request topic. Delivery is at least once, at most five
times. This project models that pipeline in Dafny and proves what it promises over every run.

## How the model is laid out

- `Events`, `Text`, `Environment`: envelopes and payloads, runes, and everything a step cannot decide for itself
  (network answers, model results, fresh UUIDs, crashes, lost settlements).
- `Windows`, `Cosine`, `VectorDB`, `Blobs`, `Bus`: the chunk splitter, the scoring and the index, the two blob stores,
  and the JetStream client with its delivery wrapper.
- `Router`, `Embedder`, `Vision`, `Chunker`, `Engine`, `Gateway`: one module per service. A class with the service's
  methods, each proved equal to a function of its inputs and the old state (`React`, `StoreAfter`, `IngestEffect`,
  `Delivered`, ...).
- `Protocol`: the whole pipeline as a transition system whose state is the stream, the multiset of pending messages,
  the index, the blobs and the waiting searches. A label carries every open choice of a step, so `Next` is a function,
  and a run is a list of enabled labels. `Platform.Monolith` wires the service classes together and performs exactly
  these steps, so what is proved of runs holds of the imperative code.
- `Provenance`, `Invariant`, `Identity`: where each envelope comes from, and which names are unique.
- `Ledger`, `Refinement`, `Duplication`, `Echoes`, `Linearizability`, `Answerability`, `Termination`, `Completion`,
  `Restarts`, `Isolation`, `Backends`, `Consequences`: the results about runs.
- `Requests`, `Promises`: the same from the caller's side, with every number, prefix and address written out: what a
  request announces and which route it takes, what becomes of an ingest, and what a search is answered with.
- `Walkthrough`: runs that meet the hypotheses of those results. For every text too large for the bus and for
  every file, images included, one that indexes it to the end, quiet and without echoes; for every text query and every
  image, one whose search returns; for every text blob, one that sends its windows twice. `ImageSearch` has one in which
  an image search returns more than it asked for. `Completion` extends any run to one with nothing in flight.
- `ReplyRouter`: a finer machine for the gateway's reply correlation, in which looking a channel up and sending on it
  are separate steps; it refines the atomic view the pipeline uses.

A run is read as follows. `Ingest` and `Search` are gateway calls; `Deliver` is one delivery of one message; `Return`
and `Timeout` end a search; `Restart` is a restart of processes.

A delivery marked `crashed` never reached its handler's first effect, except that a chunker may have sent its first
`cut` windows. What a process loses when it dies is a separate step, because it loses it for every message: the index,
the waiting searches and the in-memory blobs are Go maps (internal/infra/vectordb/memory.go:28-37,
internal/modules/gateway/service.go:29, internal/infra/blob/memory.go:11-20; created in cmd/monolith/main.go:99-100 and
cmd/microservices/engine/main.go:80), and `Restart` empties those its flags name. The bus keeps its messages on disk
(internal/infra/bus/server.go:27, internal/infra/bus/client.go:156).

A publish that fails for its caller although the server kept the message needs no case of its own: where the handler
Nacks, it is a successful publish whose settlement is lost; in a worker, which ignores the error, it is a successful
publish; in `SearchDocuments` it is a search followed by a timeout. A worker that dies after its one publish is a
delivery whose settlement is lost; a gateway that dies between upload and publish is a request whose publish failed.

## What the theorems assume

- The first settlement of a delivery that reaches the server wins. Handlers settle their own message and the wrapper
  settles it again (internal/infra/bus/client.go:108-115); the library's behaviour is an assumption, not proved here.
- Vectors and scores are exact reals, and `math.Sqrt` is a function that is right on non-negative reals (`IsSqrt`).
- The vectoriser and the describer are deterministic total functions. UUIDs are fresh and 36 characters long.
- Each topic has one consumer that runs its handler serially, and there is one engine, as in the monolith.
- `OneVersion(s, r)`: every upload to the blob URI of request `r` had the same content, or `r` needs no blob. A second
  upload of the same tenant and file name overwrites the first (`DownloadAfterUpload`), and then what a slow worker
  reads is not what was accepted. The ledger, answerability and cost of one request ask it of that request alone; the
  refinement, which speaks of the whole index, of every accepted document. `FreshRunOneVersion` says that never
  uploading to a URI twice is enough. A stored record is safe without it, vision records excepted (`RecordKept`).
- `Quiet`: nothing in flight, no loss but empty vectors, no record wiped by a restart. The refinement and the retrieval
  of large texts speak of runs that end so.

Provenance, uniqueness, termination, isolation, linearizability and backend equivalence ask for none of the last two.

## Where the code differs from its own documentation

- internal/modules/engine/domain.go:9 says a score is between 0 and 1. It can be -1 (`OppositeScores`), it is negative
  exactly when the dot product is (`ScoreNonNegativeIff`), and so a search's scores are all in [0, 1] if and only if
  the caller's slice has, among the records of the query's length, at least as many with a non-negative dot product as
  the search is to return (`ScoresInUnitIff`, `ReturnedScoresInUnitIff`).
- pkg/events/message.go:11 says `Term` moves the message to the dead letter queue. A terminated delivery leaves its
  envelope there if and only if the router terminated it and its own publish succeeded
  (internal/modules/router/core.go:53; `TermDeadLettersIff`); the engine terminates and nothing is kept
  (`EngineTermsSilently`). In no run is anything terminated (`NeverTermed`).
- A search's top-k is lost on the image route, whose payload has no field for it: an image search returns five results
  or all there are (`ReturnedCount`), also when it asked for one (`TopKIsLost`).
- Text above 64 KB is cleared before its size is computed, so the size becomes 0 (`OneUploadAndBoundedText`); and a
  file sent along is stored if and only if the text is at most 64 KB, coincidence of name and content aside
  (`FileUploadedIff`).
- A reply handled while its search cleans up panics the gateway (`LateReplyPanics`); `SendPanicsIff` says exactly when.
- The chunker draws new chunk IDs on every delivery, so a chunk message delivered again after it was handled stores its
  document twice (`StoredTwice` has the runs). A quiet run misses the sequential index exactly when a window that has a
  vector was sent in two deliveries (`RefinesIffSentOnce`), and for that a settlement of the router or the chunker must
  be lost after it did its work, or the chunker die halfway (`SentOnceUnlessEchoed`).
- Acknowledged is not kept: the index is memory, so a document of which nothing is in flight when the engine restarts
  is never found again (`AcknowledgedIsGone`).
- Tenants are isolated in the blob store only if no tenant ID followed by `/` begins another (`TenantsCollideIff`).

## Model

| member | source | states |
|---|---|---|
| Windows.ChunkText | internal/modules/workers/chunker/service.go:86-101 | The loop ends for 0 <= overlap < chunkSize and yields the windows of the text: stretches of chunkSize runes, each starting overlap runes before the last one's end, the last ending the text |
| Windows.WindowsRejoin | internal/modules/workers/chunker/service.go:86-101 | Splitting loses nothing: the first window followed by every later one without its first overlap runes is the text |
| Windows.WindowsCount | internal/modules/workers/chunker/service.go:86-101 | There are 0 windows of the empty text, otherwise max(1, ceil((n - overlap) / (chunkSize - overlap))) |
| Windows.WindowAt | internal/modules/workers/chunker/service.go:89-98 | Window k is the stretch of the text that starts k steps in |
| Windows.RunInOneWindow | internal/modules/workers/chunker/service.go:86-101 | Every run of at most overlap + 1 runes lies whole inside one window |
| Windows.RunBoundIsTight | internal/modules/workers/chunker/service.go:86-101 | One rune more and it fails: in every text longer than a window, a run of overlap + 2 runes is cut by every window |
| Windows.WindowInNumbers | internal/modules/workers/chunker/service.go:63-101 | The worker's windows in closed form: window k starts at rune 450 k, there is one if the one before does not reach the end, and it has 500 runes or what is left |
| Windows.PublishedExactly | internal/modules/workers/chunker/service.go:63-80 | Exactly those of these windows that are not all white space are published |
| Windows.NonBlankMembers | internal/modules/workers/chunker/service.go:65-68 | Exactly the windows that are not blank are published |
| Text.BlankIffAllSpace | internal/modules/workers/chunker/service.go:66-68 | A window is skipped if and only if all its runes are white space |
| Text.SpacesListed | internal/modules/workers/chunker/service.go:66-68 | White space is the 25 code points with Unicode's White_Space property |
| Text.EncodingRoundTrip | internal/modules/gateway/service.go:85 | The reference encoding, section 3 of RFC 3629, is read back by a decoder that goes by first bytes |
| Text.SizeIsEncodedLength | internal/modules/gateway/service.go:85 | The size the gateway checks is the number of bytes of that encoding |
| Windows.PhraseSurvives | internal/modules/workers/chunker/service.go:63-80 | Every phrase of up to 51 runes (the number, not the constant) with a non-space rune stands whole in a published chunk |
| Windows.PublishedSize | internal/modules/workers/chunker/service.go:63-80 | A published chunk has 1 to 500 runes and at most 2000 bytes |
| Cosine.CosineSimilarity | internal/infra/vectordb/memory.go:122-141 | The loop of three accumulations computes the score that ScoreSquared, ScoreNonNegativeIff, DotUnit and DotPlus pin |
| Cosine.ScoreSquared | internal/infra/vectordb/memory.go:126-140 | For non-zero vectors the score times both roots is the dot product, and its square times both squared norms is the dot product's square |
| Cosine.DotUnit | internal/infra/vectordb/memory.go:127-131 | The dot product with unit vector i picks coordinate i |
| Cosine.DotPlus | internal/infra/vectordb/memory.go:127-131 | The dot product is additive |
| Cosine.ScoreOrder | internal/infra/vectordb/memory.go:126-140 | Of two non-zero vectors the one at the smaller angle to the query scores higher |
| Cosine.ScoreOrderEqualNorms | internal/infra/vectordb/memory.go:126-140 | Of two vectors of equal norm the one with the larger dot product scores higher |
| Cosine.CauchySchwarz | internal/infra/vectordb/memory.go:127-140 | The squared dot product is at most the product of the squared norms, for vectors of any length |
| Cosine.SimilarityBounded | internal/infra/vectordb/memory.go:120-141 | Every score is within [-1, 1] |
| Cosine.OppositeScores | internal/modules/engine/domain.go:9 | A score can be negative: the vectors [1] and [-1] score -1 |
| Cosine.ScoreNonNegativeIff | internal/modules/engine/domain.go:9 | For vectors of any length, a score is at least 0 if and only if the dot product is |
| Cosine.SimilaritySymmetric | internal/infra/vectordb/memory.go:122-141 | Scores are symmetric |
| Cosine.SimilarityScaled | internal/infra/vectordb/memory.go:122-141 | Scaling a vector by a positive factor changes no score |
| Cosine.SelfSimilarity | internal/infra/vectordb/memory.go:122-141 | A non-zero vector scores exactly 1 against itself |
| Cosine.NonZeroNorm | internal/infra/vectordb/memory.go:136-138 | The zero guard fires only for the zero vector |
| VectorDB.MemoryVectorDB.Upsert | internal/infra/vectordb/memory.go:40-72 | Refuses the empty tenant and the empty vector and then changes nothing; otherwise sets exactly one record of one tenant |
| VectorDB.MemoryVectorDB.Search | internal/infra/vectordb/memory.go:75-118 | Answers with a top-k of the tenant's slice, whatever order the map is iterated in: min(k, candidates) distinct records of the query's dimension, scores descending, none left out that scores above one returned |
| VectorDB.SortByScore | internal/infra/vectordb/memory.go:109-111 | A descending permutation, nothing promised of ties |
| VectorDB.SortedPrefixIsTopK | internal/infra/vectordb/memory.go:91-117 | Scanning everything, sorting and truncating gives a top-k |
| VectorDB.TopKScoresUnique | internal/infra/vectordb/memory.go:93-115 | Any two correct answers carry the same score sequence, so map order and tie-breaking do not show in it |
| VectorDB.StoredQueryScoresOne | internal/infra/vectordb/memory.go:75-118 | If some record holds the query itself, the first result scores exactly 1 |
| VectorDB.UpsertThenSearch | internal/infra/vectordb/memory.go:40-118 | After an upsert of a non-zero vector, searching for it with k >= 1 has top score 1 |
| VectorDB.RankingScaleInvariant | internal/infra/vectordb/memory.go:75-118 | A list is a top-k for a query if and only if it is one for the query scaled by a positive factor |
| VectorDB.RankedByAngle | internal/infra/vectordb/memory.go:91-117 | A record ranked behind another in a top-k, or left out of it, is at no smaller angle to the query, and at equal norms has no larger dot product with it |
| VectorDB.ScoresInUnitIff | internal/modules/engine/domain.go:9 | All scores of a top-k are in [0, 1] if and only if at least min(k, candidates) of the slice's candidates have a non-negative dot product with the query |
| Bus.Message.Settle | internal/infra/bus/client.go:179-189 | Only the first settlement that reaches the server counts; a later one errs and changes nothing |
| Bus.Client.Publish | internal/infra/bus/client.go:59-74 | Appends to the stream and queues the message with five deliveries, or errs and changes nothing |
| Bus.Client.Conclude | internal/infra/bus/client.go:84-117 | The wrapper's second settlement changes nothing; the message goes when acknowledged or terminated, otherwise it comes back with one delivery less until none is left |
| Bus.ArrivalsCount | internal/infra/bus/client.go:84-90 | A list of publishes queues each of its messages as often as it was published, with five deliveries, and nothing for the dead letter queue |
| Bus.ArrivalsMember | internal/infra/bus/client.go:84-90 | A message is queued by a list of publishes if and only if it is among them, has all its deliveries and is not for the dead letter queue |
| Blobs.MemoryStorage.Upload | internal/infra/blob/memory.go:22-35 | The content is kept under memory://tenant/filename, replacing what was there |
| Blobs.MemoryStorage.Get | internal/infra/blob/memory.go:37-47 | The content under the URI, or an error if there is none |
| Blobs.S3Adapter.Upload | internal/modules/gateway/adapters/s3/blobstore.go:54-73 | The object is kept under tenant/filename and named s3://bucket/tenant/filename, or nothing changes |
| Blobs.S3Adapter.Get | internal/modules/gateway/adapters/s3/blobstore.go:75-93 | Too short a URI errs; otherwise the prefix is sliced off unread and the object under the rest is returned |
| Blobs.KeyOfUri | internal/modules/gateway/adapters/s3/blobstore.go:72-80 | Key extraction inverts URI building on both stores |
| Blobs.PrefixUnread | internal/modules/gateway/adapters/s3/blobstore.go:75-93 | The bucket's adapter reads only the length of a URI's prefix: whatever stands there, the object under what follows is returned |
| Blobs.SameSlotSameUri | internal/infra/blob/memory.go:28-31 | Two uploads share a slot if and only if they share a URI |
| Blobs.DownloadAfterUpload | internal/infra/blob/memory.go:22-47 | A download inverts the latest upload under its URI, and no other URI is disturbed, on both stores |
| Blobs.UriDeterminesTenant | internal/infra/blob/memory.go:28 | Tenants neither of which, followed by a slash, begins the other never share a URI |
| Blobs.TenantsCollideIff | internal/infra/blob/memory.go:28 | Two tenants can reach one URI if and only if one ID followed by a slash begins the other |
| Blobs.NoSlashApart | internal/infra/blob/memory.go:28 | IDs without a slash never collide |
| Router.Service.HandleEvent | internal/modules/router/core.go:43-76 | Forward and Ack, or Nack if the forward fails; no route: dead letter and Term; where to is RouteByType and ClassifyAt, what has no route is UnknownTypes |
| Embedder.Service.HandleTask | internal/modules/workers/embedder/service.go:29-85 | The three routes are joined into one event with one chunk; a model error Nacks, an empty vector or an unknown type only Acks, a failed publish is ignored |
| Vision.Service.HandleTask | internal/modules/workers/vision/service.go:31-78 | Describes the image under the blob URI; a missing blob or a model error Nacks; the chunk ID is the document's with a suffix |
| Chunker.Service.HandleTask | internal/modules/workers/chunker/service.go:41-84 | Only ingests are split; a missing blob Nacks before anything is published; otherwise the non-blank windows are published in order and failed publishes ignored |
| Chunker.Service.PublishWindows | internal/modules/workers/chunker/service.go:65-81 | The loop puts exactly the non-blank windows whose publish succeeded on the bus, in order, up to where the worker dies if it does |
| Chunker.EmitsMembers | internal/modules/workers/chunker/service.go:65-81 | What is published is exactly the windows whose publish succeeded, each under its own ID |
| Engine.Service.HandleUpsert | internal/modules/engine/service.go:72-89 | The chunks before the first refused one are upserted; Ack if none was refused, otherwise Nack |
| Engine.AcceptedUpToRefused | internal/modules/engine/service.go:76-81 | The chunks accepted are those before the first without a vector, none without a tenant |
| Engine.Service.HandleSearch | internal/modules/engine/service.go:92-149 | Terms a search without chunks, Nacks if the index refuses or the reply cannot be published; otherwise replies with a top-k, five if none was asked for, in the order SearchReturnsBest states |
| Engine.Service.HandleTask | internal/modules/engine/service.go:42-69 | Dispatch on the original type; other types are only acknowledged |
| Engine.UpsertAllIsOverlay | internal/modules/engine/service.go:76-81 | Upserting a list overlays the tenant's slice, the last of a repeated chunk ID winning, and leaves other tenants alone |
| Engine.RetryAbsorbed | internal/modules/engine/service.go:72-89 | A pass that stopped after any prefix is absorbed by a later full pass, even with repeated chunk IDs |
| Engine.KeysKept | internal/infra/vectordb/memory.go:57-71 | No upsert removes a key of any tenant |
| Gateway.Service.IngestDocument | internal/modules/gateway/service.go:80-134 | Uploads, publish and every error exit as a function of the request; an ID is returned exactly if the stream grew, and then by one announcement under that ID with the text, if that is at most 64 KB |
| Gateway.Service.BeginSearch | internal/modules/gateway/service.go:136-179 | Uploads, publish and the waiting entry as a function of the request: the search waits exactly if everything was published, and otherwise no entry is left |
| Gateway.Service.HandleReply | internal/modules/gateway/service.go:61-77 | The waiting search, if there is one, gets the envelope, and the message is acknowledged with or without one; if its channel is still full the handler blocks, unsettled, and changes nothing |
| Gateway.Service.EndSearch | internal/modules/gateway/service.go:166-197 | Takes the reply or gives up, and removes the entry either way |
| Gateway.OneUploadAndBoundedText | internal/modules/gateway/service.go:85-127 | An ingest uploads at most once and announces at most 64 KB of text; larger text is moved out and its size becomes 0 |
| Gateway.FileUploadedIff | internal/modules/gateway/service.go:85-107 | A file sent along is stored if and only if the text is at most 64 KB, or the file is that very text under its generated name |
| Platform.Monolith.Ingest | internal/modules/gateway/service.go:80-134 | The wired services perform exactly the protocol's ingest step |
| Platform.Monolith.BeginSearch | internal/modules/gateway/service.go:136-183 | The wired services perform exactly the protocol's search step |
| Platform.Monolith.EndSearch | internal/modules/gateway/service.go:186-197 | The wired services perform exactly the protocol's return or timeout step |
| Platform.Monolith.Deliver | internal/infra/bus/client.go:95-117 | Handler, wrapper and server together perform exactly the protocol's delivery step |
| Platform.Monolith.Restart | cmd/monolith/main.go:99-100 | A restart of the monolith leaves the bus as it is and empties the index, the blobs and the waiting searches, which is the protocol's restart step |
| Requests.IngestAnnounces | internal/modules/gateway/service.go:80-134 | On the call alone: an ingest is announced exactly if it has a tenant, its upload, if it needs one, succeeds and the publish does; and then with its text, type, address and size, and what it uploads |
| Requests.SearchAnnounces | internal/modules/gateway/service.go:136-179 | On the call alone: a search is announced, and waits, exactly if it has a tenant, its file, if it has one, is stored and the publish succeeds; and then with its query, address, top-k and type |
| Requests.RouteByType | internal/modules/router/adapters/classifier/static.go:36-43 | A type that begins with "image/" goes to the describer; else, with a file, one that contains "text/" goes to the chunker; all else goes to the embedder |
| Provenance.ClassifyAt | internal/modules/router/adapters/classifier/static.go:20-54 | At every place of the pipeline the classifier forwards to that place's consumer |
| Provenance.EmbedAt | internal/modules/workers/embedder/service.go:36-84 | What the embedder makes of each place: the same piece, embedded, or a named loss |
| Provenance.VisionAt | internal/modules/workers/vision/service.go:37-77 | What the vision worker makes of an image request |
| Provenance.ChunkAt | internal/modules/workers/chunker/service.go:70-80 | Window j of a document becomes piece j of its request |
| Provenance.EngineAt | internal/modules/engine/service.go:42-149 | At an embedded piece the engine stores one record or replies once; the index refuses nothing |
| Invariant.InvNext | internal/infra/bus/client.go:59-117 | Every step keeps provenance: each envelope is a function of an announced request, each pending message is on the stream, each blob URI names an upload |
| Invariant.InvReachable | pkg/events/envelope.go:32-56 | Every reachable state meets the provenance invariant |
| Identity.UniqueReachable | internal/modules/gateway/service.go:109-150 | Along every run a document ID belongs to one ingest, a correlation ID to at most one search, and a chunk ID the chunker drew to one window of one document |
| Identity.ChunkIdDetermines | internal/modules/workers/embedder/service.go:36-48 | A chunk ID determines its request and piece, across all three routes, and its text unless a describer wrote it |
| Identity.PiecesKept | internal/infra/blob/memory.go:28-31 | A step that uploads no other content under its blob URI leaves what an accepted request is split into unchanged |
| Identity.FreshRunOneVersion | internal/infra/blob/memory.go:28-31 | If no step of a run uploads to a URI that was uploaded to before, every URI was given one content |
| Consequences.EverythingHasItsRequest | pkg/events/envelope.go:32-56 | Everything on the stream carries its request's tenant, correlation ID and original type; the dead letter queue stays empty; an embedded event has one chunk with a vector |
| Consequences.NoDeadBranches | internal/modules/router/core.go:47-60 | No pending message takes an unknown-type branch of the router, embedder or engine, and the index's errors for an empty tenant or vector never fire |
| Consequences.NeverTermed | internal/modules/router/core.go:47-60 | No delivery of any run is terminated |
| Consequences.UnknownTypes | internal/modules/router/core.go:47-60 | An event of a type nobody knows is dead-lettered, if that can be published, and terminated by the router, and acknowledged without effect by every worker |
| Consequences.RefusedSearchComesBack | internal/modules/engine/service.go:107-112 | A search the index refuses for want of a tenant or a vector is put back |
| Consequences.TermDeadLettersIff | pkg/events/message.go:11 | A terminated delivery leaves its envelope on the dead letter queue if and only if it is the router's and its publish succeeded |
| Consequences.EngineTermsSilently | internal/modules/engine/service.go:95-98 | The engine terminates a search without vectors and publishes nothing |
| Consequences.ClaimCheckBound | internal/modules/gateway/service.go:85-118 | In every reachable state, text that descends from an ingest is at most 64 KB, a window at most 2000 bytes, vision descriptions excepted |
| Consequences.LargeTextIsIndexed | internal/modules/gateway/service.go:85-102 | In a quiet state, every phrase of up to 51 runes of a text too large for the bus stands whole in a record of that document in the caller's slice, if its generated file name was given one content |
| Consequences.PieceIndexed | internal/modules/engine/service.go:72-89 | In a quiet state every piece of a document with one version that has a vector is in the index under its document, word for word |
| Ledger.StoreOkReachable | internal/modules/engine/service.go:72-89 | Along every run each stored record is, field by field, a piece of an accepted document of its tenant |
| Ledger.RecordKept | internal/infra/vectordb/memory.go:57-71 | Short of a restart of the engine no step removes a stored record, and none changes it, unless it is a vision record whose image was replaced |
| Ledger.SettledAccounts | internal/modules/workers/embedder/service.go:60-84 | A delivery settled for good hands the piece on, fulfils it, or records its loss |
| Ledger.UnsettledAccounts | internal/infra/bus/client.go:88-112 | A delivery not settled comes back, or was the last and is recorded as exhausted |
| Ledger.LedgerBalances | internal/infra/bus/client.go:88-115 | After every run each piece of each accepted request with one version is stored or replied to, was stored until the engine restarted, is in flight, or was lost for a recorded cause: an ignored publish error, an empty vector, five deliveries used |
| Refinement.EmptyPieceSkipped | internal/modules/workers/embedder/service.go:60-63 | A piece recorded as lost to an empty vector really has none |
| Refinement.IndexAllContents | internal/modules/engine/service.go:72-89 | The sequential indexer's index holds exactly the records of the documents' pieces that have vectors |
| Refinement.NamedOnceIffSentOnce | internal/modules/workers/chunker/service.go:55-83 | Each window that has a vector was named once if and only if the chunker sent it in one delivery only |
| Refinement.RefinesSequentialIndexer | internal/modules/workers/chunker/service.go:41-84 | Under any interleaving and redelivery, a quiet run in which every document has one version and no window that has a vector was sent twice ends with exactly the index a plain loop over the accepted documents builds, under the chunk IDs drawn |
| Duplication.NamesBalance | internal/modules/workers/chunker/service.go:70-80 | The ledger by chunk ID: every ID the chunker ever drew for a document with one version is stored, was stored until a restart, is in flight, or was lost for a recorded cause |
| Duplication.RefinesIffSentOnce | internal/modules/workers/chunker/service.go:63-83 | In a quiet run in which every document has one version, the index equals the sequential indexer's if and only if no window that has a vector was sent in two deliveries |
| Echoes.SentOnceUnlessEchoed | internal/modules/router/core.go:60-76 | Whatever else fails, crashes or is redelivered, no window is sent in two deliveries unless a settlement of the router or the chunker is lost after it did its work, or the chunker dies having sent some windows |
| Echoes.RefinesWithoutEchoes | internal/modules/workers/chunker/service.go:41-84 | A quiet run without such a lost settlement, in which every document has one version, ends with exactly the sequential indexer's index |
| Linearizability.RepliesComputed | internal/modules/engine/service.go:92-148 | Every reply on the stream was computed from the index as it stood at one step of the run |
| Linearizability.SearchLinearizable | internal/modules/gateway/service.go:136-198 | Whatever a search returns is a top-k of the caller's own slice, for its query and effective k, at one step between its call and its return |
| Linearizability.ResultsAreOwn | internal/infra/vectordb/memory.go:83-107 | Every result a search returns is a record of the caller's own tenant, field by field, scored against its query, and its text is, word for word, a piece of a document that tenant had ingested |
| Linearizability.ReturnedCount | internal/modules/engine/service.go:102-105 | A search returns as many results as its call asked for, five if it asked for none or came with an image, or all there are of its dimension if there are fewer |
| Linearizability.ReturnedScoresInUnitIff | internal/modules/engine/domain.go:9 | The scores a search returns are all in [0, 1] if and only if, in the caller's slice at the step the reply was computed, at least as many records have a non-negative dot product with the query as the search is to return |
| Linearizability.StoredTextIsFound | internal/modules/workers/embedder/service.go:36-78 | Once a text is stored with a non-zero vector, every later text search of that tenant for the same text that is answered before the engine restarts has a first result of score exactly 1, whatever else is uploaded, unless it is the description of an image that is replaced |
| Answerability.NeverReplied | internal/modules/workers/chunker/service.go:47-53 | A search that is replied to, whatever faults occur, is not routed to the chunker, has a blob if it is an image, and some content given to its URI has a vector: the one content, if it was given one |
| Answerability.RepliedIffAnswerable | internal/modules/router/adapters/classifier/static.go:36-43 | In a run without faults, once nothing is in flight, a search with one version has been replied to if and only if it is not routed to the chunker, has a blob if it is an image, and has a vector |
| Answerability.AnsweredIffAnswerable | internal/modules/gateway/service.go:61-198 | And then, unless it was given up, its caller has the answer, returned or waiting in its channel, if and only if the search meets that condition |
| Promises.DirectIsIndexed | internal/modules/workers/embedder/service.go:29-85 | Once the pipeline is quiet, an ingest of at most 64 KB that is no image and brings no text file is stored in its tenant's slice under its own ID with its very text, type and address, if the text has a vector |
| Promises.ImageIsIndexed | internal/modules/workers/vision/service.go:31-78 | An image that comes with its file is stored under its ID and "-vision" with the description of that file |
| Promises.WindowIsIndexed | internal/modules/workers/chunker/service.go:41-84 | Of a text file, and of a text above 64 KB, every window that is not white space and has a vector is stored with that very text, type and address |
| Promises.RecordIsIngested | internal/modules/engine/service.go:72-89 | Whatever the index holds, some ingest of that tenant put there: its text, the description of its image, or a window of its file or large text, according to its type |
| Promises.TextFileIsNeverAnswered | internal/modules/workers/chunker/service.go:47-53 | A search that is no image and comes with a text file is never answered, whatever happens |
| Promises.SearchIsAnsweredIff | internal/modules/gateway/service.go:136-198 | In a run without faults, once nothing is in flight, a search that was not given up is answered if and only if it is an image with its file, or no image and without a text file, and what it looks for has a vector |
| Promises.SearchReturnsBest | internal/modules/gateway/service.go:136-198 | Whatever a search returns is, in its tenant's slice at some step between call and return, the best list for its query text or image description: as many as asked for or five, each a record's own fields and score, scores descending, chunk IDs distinct, nothing left out that scores higher |
| Promises.BestIsNearest | internal/infra/vectordb/memory.go:91-117 | In such a list a record ranked behind another, or left out, is no closer to the query by angle, nor at equal norms by dot product |
| Termination.DeliveryLowers | internal/infra/bus/client.go:88-115 | Every delivery lowers a weight over the messages in flight, whatever it publishes |
| Termination.DeliveriesPaid | internal/infra/bus/client.go:88-115 | Deliveries made plus the weight in flight never exceed the cost of the accepted requests |
| Termination.RunsEnd | internal/infra/bus/client.go:88-115 | The length of every run, its restarts aside, is bounded by the number of its requests and the most windows an uploaded content has, however deliveries fail or repeat |
| Termination.DocumentCost | internal/modules/workers/chunker/service.go:63-81 | A document with one version causes at most 5+5^2+5^3+5^4 deliveries directly, 5+...+5^6 as an image, 5+5^2+n(5^3+...+5^6) as a text blob with n non-blank windows |
| Completion.TopKExists | internal/infra/vectordb/memory.go:75-118 | For every slice, query and k there is a top-k, so the engine is never without an answer |
| Completion.Completes | internal/infra/bus/client.go:84-117 | From every reachable state, given enough fresh UUIDs, some continuation of faultless deliveries and returning searches empties the queue and draws no other UUID |
| Restarts.AcknowledgedIsGone | cmd/microservices/engine/main.go:79-80 | A document of which nothing is in flight when the engine restarts is never in the index again |
| Walkthrough.LargeTextFinishes | internal/modules/gateway/service.go:85-102 | For every text too large for the bus there is a run that accepts it, ends quiet and leaves the sequential indexer's index |
| Walkthrough.FileFinishes | internal/modules/gateway/service.go:104-127 | For every document with a file, on whichever route, there is a run that accepts it, ends quiet and leaves the sequential indexer's index |
| Walkthrough.SearchReturns | internal/modules/gateway/service.go:136-198 | For every text query there is a run in which its search returns |
| Walkthrough.ImageSearchReturns | internal/modules/gateway/service.go:136-198 | For every image there is a run in which the search for it returns |
| ImageSearch.TopKIsLost | internal/modules/workers/vision/service.go:65-75 | For any two short documents and an image search of the same tenant for one result, there is a run without faults in which it returns two or more |
| Walkthrough.StoredTwice | internal/modules/workers/chunker/service.go:63-83 | For every text blob with a window there is a run, its one fault a lost settlement of the chunker, that ends quiet without any loss and whose index is not the sequential indexer's |
| Isolation.TenantsDoNotInterfere | internal/infra/vectordb/memory.go:60-93 | Erasing every step of other tenants, restarts kept, leaves a run with the same index slice, messages, blobs and waiting searches for the kept tenant, and the same results returned |
| Isolation.OthersDoNotMatter | internal/infra/vectordb/memory.go:60-93 | Two runs in which a tenant takes the same steps leave it the same index and messages, whatever the others do |
| Backends.SwapUri | internal/modules/gateway/adapters/s3/blobstore.go:72 | Exchanging the two prefixes maps each store's URIs onto the other's |
| Backends.TwinStep | internal/modules/router/adapters/classifier/static.go:36-43 | A step over one store is, with URIs exchanged, an enabled step over the other with corresponding results |
| Backends.BackendsSimulate | internal/modules/gateway/adapters/s3/blobstore.go:54-93 | A run over one store is, with URIs exchanged, a run over the other if and only if no restart in it loses the memory store's blobs, and then both end in corresponding streams, indexes and waiting searches |
| ReplyRouter.InvNext | internal/modules/gateway/service.go:61-198 | Every interleaved step of callers and handler keeps the router's invariant |
| ReplyRouter.PendingIffUncleaned | internal/modules/gateway/service.go:160-172 | After any run the map holds exactly the correlation IDs registered and not yet cleaned up |
| ReplyRouter.RegisteredBeforePublish | internal/modules/gateway/service.go:160-177 | A search is published only while its entry leads to its own open channel |
| ReplyRouter.ReceivesOwnReply | internal/modules/gateway/service.go:190-196 | A search only ever receives a reply with its own correlation ID |
| ReplyRouter.ClosedAfterDeleted | internal/modules/gateway/service.go:167-172 | A channel closes only after its entry is gone, and no entry leads to a closed channel |
| ReplyRouter.SendPanicsIff | internal/modules/gateway/service.go:64-75 | A send panics if and only if its caller closed the channel between the handler's lookup and the send |
| ReplyRouter.SafeWithoutCleanup | internal/modules/gateway/service.go:64-75 | A send is safe whenever no cleanup of its caller begins between lookup and send |
| ReplyRouter.LateReplyPanics | internal/modules/gateway/service.go:64-75 | A concrete run in which a reply looked up before a timeout panics the gateway |
| ReplyRouter.RefinesAtomicView | internal/modules/gateway/service.go:61-77 | Unless it panics, every interleaving has exactly the atomic effect on the waiting searches that the pipeline model uses |

## Left out

- Floating point: float32 rounding, overflow and NaN; scores and norms are exact reals.
- JSON, base64, UTF-8 decoding, UUID generation and clocks: payloads decode to themselves on well-formed data, invalid
  UTF-8 is not considered, and the error returns of encoding are not modelled; `NewEnvelope`'s tenant check is.
- Envelope fields no handler reads: event ID, creation time, trace and span IDs, retry count, payload metadata.
- Blob bytes: contents are the runes a reader decodes, reads are never partial, and an S3 content length that disagrees
  with the body is not modelled.
- The NATS client and the embedded server: only publish, delivery and settlement, as abstract steps.
- Several engine replicas, several gateways, and a handler run concurrently with itself: one of each, run serially.
- A reply that waits for a full channel: in `Protocol` it is delivered only when the slot is free; `HandleReply` and
  `ReplyRouter` have the blocking, and `ReplyRouter` the panic.
- `ChunkText` outside 0 <= overlap < chunkSize, where the loop need not end, and `Search` with a negative top-k: the
  callers pass 500 and 50, and a positive number.
- The sort's tie order: `SortByScore` is one descending permutation, and `IsTopK` allows every tie order.
- A wired monolith over S3: `Platform.Monolith` uses the memory store, and `Backends` carries the results over.
- HTTP handlers, SSE streaming, metrics, configuration, logging, the supervisor, the Ollama and mock adapters.
