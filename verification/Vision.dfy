/** The vision worker: downloads an image, describes it, and passes the description on. */
module Vision {
  import opened Wrappers
  import opened Events
  import opened Bus
  import opened Blobs
  import opened Environment

  datatype Job = Job(docId: string, blobURI: string, mimeType: string)

  function JobOf(env: Envelope): Option<Job> {
    match env.typ
    case IngestRequested =>
      var p := DecodeIngest(env.data);
      Some(Job(p.documentId, p.blobURI, p.mimeType))
    case SearchRequested =>
      var p := DecodeSearch(env.data);
      Some(Job("search-img", p.blobURI, p.mimeType))
    case _ => None
  }

  function Completed(env: Envelope, job: Job, description: string, uuid: string): Envelope {
    OrNil(NewEnvelope(env.tenantId, env.correlationId, VisionCompleted, "worker.vision",
                      EmbedRequestedPayload(job.docId, job.docId + "-vision", description, job.blobURI, job.mimeType,
                                            env.typ), uuid))
  }

  function React(b: Backend, describe: string -> string, objects: Objects, env: Envelope, a: Answers): Reaction {
    var job := JobOf(env);
    if job.None? then Reaction([], Acked, {})
    else
      var image := Download(b, objects, job.value.blobURI);
      if !a.getOk || image.None? || !a.modelOk then Reaction([], Nacked, {})
      else
        var out := Completed(env, job.value, describe(image.value), a.uuid);
        Reaction(Attempt(Ingress, out, a.Up(0)), Acked, if a.Up(0) then {} else {Unpublished(out)})
  }

  class Service {
    const bus: Client
    const blobs: MemoryStorage
    const describe: string -> string

    constructor (bus: Client, blobs: MemoryStorage, describe: string -> string)
      ensures this.bus == bus && this.blobs == blobs && this.describe == describe
    {
      this.bus := bus;
      this.blobs := blobs;
      this.describe := describe;
    }

    method HandleTask(msg: Message, a: Answers) returns (err: bool)
      requires msg.settled.None?
      modifies bus, msg
      ensures var r := React(Memory, describe, blobs.store, msg.env, a);
              && bus.stream == old(bus.stream) + r.emits
              && bus.pending == old(bus.pending) + Arrivals(r.emits)
              && msg.settled == (if msg.reachable then Some(r.settle) else None)
      ensures err == !msg.reachable
    {
      var env := msg.env;
      var docId, blobURI, mimeType := "", "", "";
      if env.typ == IngestRequested {
        var p := DecodeIngest(env.data);
        docId, blobURI, mimeType := p.documentId, p.blobURI, p.mimeType;
      } else if env.typ == SearchRequested {
        var p := DecodeSearch(env.data);
        docId, blobURI, mimeType := "search-img", p.blobURI, p.mimeType;
      } else {
        err := msg.Ack();
        return;
      }
      var image := blobs.Get(blobURI);
      if !a.getOk || image.None? {
        err := msg.Nack();
        return;
      }
      if !a.modelOk {
        err := msg.Nack();
        return;
      }
      var description := describe(image.value);
      var payload := EmbedRequestedPayload(docId, docId + "-vision", description, blobURI, mimeType, env.typ);
      var out := NewEnvelope(env.tenantId, env.correlationId, VisionCompleted, "worker.vision", payload, a.uuid);
      var _ := bus.Publish(Ingress, OrNil(out), a.Up(0));
      err := msg.Ack();
    }
  }
}
