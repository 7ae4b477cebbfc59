/** Where everything on the bus comes from. Every envelope is a function of the request it descends from, and this is
    what each handler makes of it. */
module Provenance {
  import opened Events
  import opened Text
  import opened Windows
  import opened Bus
  import opened Blobs
  import opened Environment
  import opened Gateway
  import opened Protocol
  import Router
  import Embedder
  import Vision
  import Chunker
  import Engine

  /** A request as the gateway announces it. */
  predicate IsRoot(env: Envelope) {
    && env.tenantId != "" && env.correlationId != "" && env.source == "gateway"
    && match env.typ
       case IngestRequested =>
         env.data.IngestPayload? && Utf8Size(env.data.contextText) <= MAX_DIRECT_TEXT_BYTES
       case SearchRequested => env.data.SearchPayload?
       case _ => false
  }

  type Root = e: Envelope | IsRoot(e)
    witness Envelope("c", "t", SearchRequested, "gateway", SearchPayload("", "", 0, ""))

  predicate IsIngest(r: Root) {
    r.typ == IngestRequested
  }

  function Route(r: Root): (t: Topic)
    ensures t in {TaskVision, TaskChunk, TaskEmbed}
  {
    Router.RouteByContent(r.data.mimeType, r.data.blobURI)
  }

  function DirectText(r: Root): string {
    if IsIngest(r) then r.data.contextText else r.data.queryText
  }

  /** The texts a request is embedded as, given the content a worker found under its blob URI. */
  function Texts(w: World, r: Root, blob: string): seq<string> {
    match Route(r)
    case TaskVision => [w.describe(blob)]
    case TaskChunk => if IsIngest(r) then Published(blob) else []
    case _ => [DirectText(r)]
  }

  function DocOf(r: Root): string {
    if IsIngest(r) then r.data.documentId else if Route(r) == TaskVision then "search-img" else "search"
  }

  /** The top-k that survives to the engine: the vision route's payload has no room for it. */
  function CarriedTopK(r: Root): int {
    if !IsIngest(r) && Route(r) == TaskEmbed then r.data.topK else 0
  }

  datatype Stage = AtRoot | AtTask | AtDone

  /** A place in the pipeline: the request; piece `i` of it as a task under ID `id`; or that piece embedded. */
  datatype Src = Src(stage: Stage, root: Root, blob: string, i: nat, id: string)

  function TaskEnvelope(r: Root, id: string, text: string): Envelope {
    var data := EmbedRequestedPayload(DocOf(r), id, text, r.data.blobURI, r.data.mimeType, r.typ);
    if Route(r) == TaskVision
    then Envelope(r.correlationId, r.tenantId, VisionCompleted, "worker.vision", data)
    else Envelope(r.correlationId, r.tenantId, ChunkCompleted, "worker.chunker", data)
  }

  function DoneEnvelope(w: World, r: Root, id: string, text: string): Envelope {
    var chunk := Chunk(id, w.vectorise(text), text, r.data.blobURI, r.data.mimeType);
    Envelope(r.correlationId, r.tenantId, EmbedCompleted, "worker.embedder",
             EmbedCompletedPayload(DocOf(r), [chunk], r.typ, CarriedTopK(r)))
  }

  function TextOf(w: World, x: Src): string {
    if x.i < |Texts(w, x.root, x.blob)| then Texts(w, x.root, x.blob)[x.i] else ""
  }

  function EnvOf(w: World, x: Src): Envelope {
    match x.stage
    case AtRoot => x.root
    case AtTask => TaskEnvelope(x.root, x.id, TextOf(w, x))
    case AtDone => DoneEnvelope(w, x.root, x.id, TextOf(w, x))
  }

  /** Chunk IDs: the document's own, the document's with a suffix, or a UUID the chunker drew. */
  predicate IdOk(w: World, s: State, x: Src) {
    match Route(x.root)
    case TaskEmbed => x.id == DocOf(x.root)
    case TaskVision => x.id == DocOf(x.root) + "-vision"
    case _ => Name(x.id, DocOf(x.root), x.i, TextOf(w, x)) in s.hist.names
  }

  predicate BlobOk(s: State, x: Src) {
    if Route(x.root) == TaskEmbed then x.blob == "" else (x.root.data.blobURI, x.blob) in s.hist.versions
  }

  ghost predicate ValidSrc(w: World, s: State, x: Src) {
    && Pub(Ingress, x.root) in s.stream
    && if x.stage.AtRoot? then x.blob == "" && x.i == 0 && x.id == ""
       else
         && BlobOk(s, x) && x.i < |Texts(w, x.root, x.blob)| && IdOk(w, s, x)
         && (x.stage.AtTask? ==> Route(x.root) != TaskEmbed)
         && (x.stage.AtDone? ==> w.vectorise(TextOf(w, x)) != [])
  }

  function Target(x: Src): Topic {
    match x.stage
    case AtRoot => Route(x.root)
    case AtTask => TaskEmbed
    case AtDone => TaskEngine
  }

  predicate TopicOk(t: Topic, x: Src) {
    t == Ingress || t == Target(x)
  }

  ghost predicate ReplyOk(w: World, s: State, p: Pub, x: Src) {
    && ValidSrc(w, s, x) && x.stage.AtDone? && !IsIngest(x.root)
    && p.env.typ == SearchCompleted && p.env.data.SearchCompletedPayload?
    && p.topic == Reply(x.root.correlationId)
    && p.env.correlationId == x.root.correlationId && p.env.tenantId == x.root.tenantId
  }

  ghost predicate PubOk(w: World, s: State, p: Pub) {
    if p.topic.Reply? then exists x :: ReplyOk(w, s, p, x)
    else exists x :: ValidSrc(w, s, x) && p.env == EnvOf(w, x) && TopicOk(p.topic, x)
  }

  ghost predicate StreamOk(w: World, s: State) {
    forall p | p in s.stream :: PubOk(w, s, p)
  }

  ghost predicate PendingOk(s: State) {
    forall m | m in s.pending :: Pub(m.topic, m.env) in s.stream && 1 <= m.left <= MAX_DELIVER && m.topic != Dlq
  }

  ghost predicate UriOk(w: World, tenant: string, uri: string) {
    exists f :: uri == Uri(w.backend, tenant, f)
  }

  /** A request's blob URI is empty or names something its tenant uploaded. */
  ghost predicate RootUriOk(w: World, s: State, r: Envelope) {
    IsRoot(r) && r.data.blobURI != "" ==>
      UriOk(w, r.tenantId, r.data.blobURI) && exists c :: (r.data.blobURI, c) in s.hist.versions
  }

  function UriOfKey(b: Backend, key: string): string {
    if b.Memory? then key else Prefix(b) + key
  }

  ghost predicate BlobsOk(w: World, s: State) {
    && (forall k | k in s.blobs :: (UriOfKey(w.backend, k), s.blobs[k]) in s.hist.versions)
    && (forall v | v in s.hist.versions :: exists t :: UriOk(w, t, v.0))
    && (forall p | p in s.stream :: RootUriOk(w, s, p.env))
  }

  ghost predicate Inv(w: World, s: State) {
    StreamOk(w, s) && PendingOk(s) && BlobsOk(w, s)
  }

  // What each handler does at each place.

  lemma ClassifyAt(w: World, x: Src)
    ensures Router.Classify(EnvOf(w, x)) == Router.Forward(Target(x))
  {
  }

  /** Where the embedder takes a piece. */
  function Embedded(x: Src): Src {
    if x.stage.AtRoot? then Src(AtDone, x.root, "", 0, DocOf(x.root)) else x.(stage := AtDone)
  }

  lemma EmbedAt(w: World, s: State, x: Src, a: Answers)
    requires ValidSrc(w, s, x) && Target(x) == TaskEmbed
    ensures var y := Embedded(x);
            var r := Embedder.React(w.vectorise, EnvOf(w, x), a);
            && y.i < |Texts(w, y.root, y.blob)| && BlobOk(s, y) && IdOk(w, s, y)
            && (w.vectorise(TextOf(w, y)) != [] ==> ValidSrc(w, s, y))
            && r == (if !a.modelOk then Reaction([], Nacked, {})
                     else if w.vectorise(TextOf(w, y)) == [] then Reaction([], Acked, {EmptyVector(EnvOf(w, x))})
                     else if a.Up(0) then Reaction([Pub(Ingress, EnvOf(w, y))], Acked, {})
                     else Reaction([], Acked, {Unpublished(EnvOf(w, y))}))
  {
    var y := Embedded(x);
    assert TextOf(w, y) == Texts(w, y.root, y.blob)[y.i];
  }

  lemma VisionAt(w: World, s: State, x: Src, a: Answers)
    requires x.stage.AtRoot? && Target(x) == TaskVision
    ensures var image := Download(w.backend, s.blobs, x.root.data.blobURI);
            var r := Vision.React(w.backend, w.describe, s.blobs, EnvOf(w, x), a);
            if !a.getOk || image.None? || !a.modelOk then r == Reaction([], Nacked, {})
            else
              var y := Src(AtTask, x.root, image.value, 0, DocOf(x.root) + "-vision");
              r == if a.Up(0) then Reaction([Pub(Ingress, EnvOf(w, y))], Acked, {})
                   else Reaction([], Acked, {Unpublished(EnvOf(w, y))})
  {
  }

  function ChunkSrc(r: Root, blob: string, j: nat, id: string): Src {
    Src(AtTask, r, blob, j, id)
  }

  lemma ChunkAt(w: World, r: Root, blob: string, j: nat, a: Answers)
    requires Route(r) == TaskChunk && IsIngest(r) && j < |Published(blob)|
    ensures Chunker.Completed(r, a.Id(j), Published(blob)[j], a.uuid) == EnvOf(w, ChunkSrc(r, blob, j, a.Id(j)))
  {
  }

  lemma EngineAt(w: World, s: State, x: Src, a: Answers)
    requires ValidSrc(w, s, x) && x.stage.AtDone?
    ensures var env := EnvOf(w, x);
            && Engine.Accepted(env.tenantId, env.data.chunks) == |env.data.chunks| == 1
            && (Engine.Searches(env) <==> !IsIngest(x.root))
            && Engine.React(env, a) ==
               (if IsIngest(x.root) then Reaction([], Acked, {})
                else if a.Up(0) then Reaction([Pub(Reply(env.correlationId), Engine.Reply(env, a).value)], Acked, {})
                else Reaction([], Nacked, {}))
  {
    var env := EnvOf(w, x);
    var chunks := env.data.chunks;
    assert Engine.Accepted(env.tenantId, chunks[1..]) == 0;
  }

  // Monotonicity: the stream and the history only grow.

  ghost predicate Grows(s: State, s': State) {
    && s.stream <= s'.stream
    && s.hist.used <= s'.hist.used && s.hist.names <= s'.hist.names
    && s.hist.versions <= s'.hist.versions && s.hist.losses <= s'.hist.losses && s.hist.wiped <= s'.hist.wiped
  }

  lemma NextGrows(w: World, s: State, l: Label)
    ensures Grows(s, Next(w, s, l))
  {
  }

  lemma SrcKept(w: World, s: State, s': State, x: Src)
    requires Grows(s, s') && ValidSrc(w, s, x)
    ensures ValidSrc(w, s', x)
  {
  }

  lemma PubKept(w: World, s: State, s': State, p: Pub)
    requires Grows(s, s') && PubOk(w, s, p)
    ensures PubOk(w, s', p)
  {
    if p.topic.Reply? {
      var x :| ReplyOk(w, s, p, x);
      SrcKept(w, s, s', x);
      assert ReplyOk(w, s', p, x);
    } else {
      var x :| ValidSrc(w, s, x) && p.env == EnvOf(w, x) && TopicOk(p.topic, x);
      SrcKept(w, s, s', x);
    }
  }
}
