/** The embedder worker: joins the three routes into one embed-completed event. */
module Embedder {
  import opened Wrappers
  import opened Events
  import opened Bus
  import opened Environment

  /** What the worker extracts from an envelope before calling the model. */
  datatype Job = Job(
    docId: string, chunkId: string, text: string, blobURI: string, mimeType: string, originalType: EventType,
    topK: int)

  function JobOf(env: Envelope): Option<Job> {
    match env.typ
    case IngestRequested =>
      var p := DecodeIngest(env.data);
      Some(Job(p.documentId, p.documentId, p.contextText, p.blobURI, p.mimeType, env.typ, 0))
    case SearchRequested =>
      var p := DecodeSearch(env.data);
      Some(Job("search", "search", p.queryText, p.blobURI, p.mimeType, env.typ, p.topK))
    case VisionCompleted =>
      var p := DecodeEmbedRequested(env.data);
      Some(Job(p.documentId, p.chunkId, p.text, p.blobURI, p.mimeType, p.originalType, 0))
    case ChunkCompleted =>
      var p := DecodeEmbedRequested(env.data);
      Some(Job(p.documentId, p.chunkId, p.text, p.blobURI, p.mimeType, p.originalType, 0))
    case _ => None
  }

  function Completed(env: Envelope, job: Job, vector: Vector, uuid: string): Envelope {
    var chunk := Chunk(job.chunkId, vector, job.text, job.blobURI, job.mimeType);
    OrNil(NewEnvelope(env.tenantId, env.correlationId, EmbedCompleted, "worker.embedder",
                      EmbedCompletedPayload(job.docId, [chunk], job.originalType, job.topK), uuid))
  }

  function React(vectorise: string -> Vector, env: Envelope, a: Answers): Reaction {
    var job := JobOf(env);
    if job.None? then Reaction([], Acked, {})
    else if !a.modelOk then Reaction([], Nacked, {})
    else
      var vector := vectorise(job.value.text);
      if vector == [] then Reaction([], Acked, {EmptyVector(env)})
      else
        var out := Completed(env, job.value, vector, a.uuid);
        Reaction(Attempt(Ingress, out, a.Up(0)), Acked, if a.Up(0) then {} else {Unpublished(out)})
  }

  class Service {
    const bus: Client
    const vectorise: string -> Vector

    constructor (bus: Client, vectorise: string -> Vector)
      ensures this.bus == bus && this.vectorise == vectorise
    {
      this.bus := bus;
      this.vectorise := vectorise;
    }

    method HandleTask(msg: Message, a: Answers) returns (err: bool)
      requires msg.settled.None?
      modifies bus, msg
      ensures var r := React(vectorise, msg.env, a);
              && bus.stream == old(bus.stream) + r.emits
              && bus.pending == old(bus.pending) + Arrivals(r.emits)
              && msg.settled == (if msg.reachable then Some(r.settle) else None)
      ensures err == !msg.reachable
    {
      var env := msg.env;
      var docId, chunkId, text, blobURI, mimeType := "", "", "", "", "";
      var originalType := Unknown("");
      var topK := 0;
      if env.typ == IngestRequested {
        var p := DecodeIngest(env.data);
        docId, chunkId, text, blobURI, mimeType, originalType :=
          p.documentId, p.documentId, p.contextText, p.blobURI, p.mimeType, env.typ;
      } else if env.typ == SearchRequested {
        var p := DecodeSearch(env.data);
        docId, chunkId, text, blobURI, mimeType, originalType :=
          "search", "search", p.queryText, p.blobURI, p.mimeType, env.typ;
        topK := p.topK;
      } else if env.typ == VisionCompleted || env.typ == ChunkCompleted {
        var p := DecodeEmbedRequested(env.data);
        docId, chunkId, text, blobURI, mimeType, originalType :=
          p.documentId, p.chunkId, p.text, p.blobURI, p.mimeType, p.originalType;
      } else {
        err := msg.Ack();
        return;
      }
      if !a.modelOk {
        err := msg.Nack();
        return;
      }
      var vector := vectorise(text);
      if |vector| == 0 {
        err := msg.Ack();
        return;
      }
      var chunks := [Chunk(chunkId, vector, text, blobURI, mimeType)];
      var payload := EmbedCompletedPayload(docId, chunks, originalType, topK);
      var out := NewEnvelope(env.tenantId, env.correlationId, EmbedCompleted, "worker.embedder", payload, a.uuid);
      var _ := bus.Publish(Ingress, OrNil(out), a.Up(0));
      err := msg.Ack();
    }
  }
}
