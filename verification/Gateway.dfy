/** The gateway service: claim check on ingest, synchronous search over the bus, reply correlation. */
module Gateway {
  import opened Wrappers
  import opened Events
  import opened Text
  import opened Bus
  import opened Blobs

  /** Text above this many bytes goes to the blob store instead of the bus. */
  const MAX_DIRECT_TEXT_BYTES := 64 * 1024

  datatype IngestRequest = IngestRequest(
    tenant: string, corr: string, text: string, filename: string, mime: string, size: int, file: Option<string>)

  datatype SearchRequest = SearchRequest(
    tenant: string, query: string, filename: string, mime: string, size: int, file: Option<string>, topK: int)

  /** The UUIDs one request draws: the document, a correlation ID, eight characters of a file name. */
  datatype Names = Names(docId: string, corr: string, suffix: string)

  datatype Upload = Upload(filename: string, content: string)

  /** What a request does before it returns or waits: uploads, then at most one publish. */
  datatype Effect = Effect(uploads: seq<Upload>, pubs: seq<Pub>, ok: bool)

  function AllUploaded(b: Backend, objects: Objects, tenant: string, us: seq<Upload>): Objects {
    if us == [] then objects
    else
      var n := |us| - 1;
      Uploaded(b, AllUploaded(b, objects, tenant, us[..n]), tenant, us[n].filename, us[n].content)
  }

  function FileUpload(filename: string, size: int, file: Option<string>): seq<Upload> {
    if file.Some? && size > 0 then [Upload(filename, file.value)] else []
  }

  function LatestUri(b: Backend, tenant: string, us: seq<Upload>): string {
    if us == [] then "" else Uri(b, tenant, us[|us| - 1].filename)
  }

  function TextFilename(n: Names): string {
    "auto_context_" + n.suffix + ".txt"
  }

  /** Large text is moved out; its size is then recomputed from the emptied text, so a file sent along with it is
      dropped. */
  function IngestEffect(b: Backend, q: IngestRequest, n: Names, upOk: bool, pubOk: bool): Effect {
    var large := Utf8Size(q.text) > MAX_DIRECT_TEXT_BYTES;
    var uploads := if large then [Upload(TextFilename(n), q.text)] else FileUpload(q.filename, q.size, q.file);
    if uploads != [] && !upOk then Effect([], [], false)
    else
      var payload := IngestPayload(n.docId, if large then "" else q.text, LatestUri(b, q.tenant, uploads),
                                   if large then "text/plain" else q.mime, if large then 0 else q.size);
      Announce(q.tenant, uploads, NewEnvelope(q.tenant, q.corr, IngestRequested, "gateway", payload, n.corr), pubOk)
  }

  function SearchEffect(b: Backend, q: SearchRequest, corr: string, upOk: bool, pubOk: bool): Effect {
    var uploads := FileUpload(q.filename, q.size, q.file);
    if uploads != [] && !upOk then Effect([], [], false)
    else
      var payload := SearchPayload(q.query, LatestUri(b, q.tenant, uploads), q.topK, q.mime);
      Announce(q.tenant, uploads, NewEnvelope(q.tenant, corr, SearchRequested, "gateway", payload, corr), pubOk)
  }

  function Announce(tenant: string, uploads: seq<Upload>, env: Option<Envelope>, pubOk: bool): Effect {
    if env.None? || !pubOk then Effect(uploads, [], false)
    else Effect(uploads, [Pub(Ingress, env.value)], true)
  }

  /** The entry announces the document under this ID, with its text if that is at most 64 KB. */
  predicate Announces(p: Pub, q: IngestRequest, docId: string) {
    && p.topic == Ingress && p.env.tenantId == q.tenant && p.env.data.IngestPayload?
    && p.env.data.documentId == docId
    && p.env.data.contextText == if Utf8Size(q.text) > 65536 then "" else q.text
  }

  /** A registered search: the caller's tenant, and the reply channel's one slot. */
  datatype Call = Call(tenant: string, inbox: Option<Envelope>)

  type Calls = map<string, Call>

  /** handleReply: the waiting call, if there is one, gets the envelope. */
  function Delivered(calls: Calls, env: Envelope): Calls {
    if env.correlationId in calls
    then calls[env.correlationId := calls[env.correlationId].(inbox := Some(env))]
    else calls
  }

  class Service {
    const bus: Client
    const blobs: MemoryStorage
    var pendingReqs: Calls

    constructor (bus: Client, blobs: MemoryStorage)
      ensures this.bus == bus && this.blobs == blobs && pendingReqs == map[]
    {
      this.bus := bus;
      this.blobs := blobs;
      pendingReqs := map[];
    }

    method IngestDocument(q: IngestRequest, n: Names, upOk: bool, pubOk: bool) returns (docId: Option<string>)
      modifies bus, blobs
      ensures var e := IngestEffect(Memory, q, n, upOk, pubOk);
              && blobs.store == AllUploaded(Memory, old(blobs.store), q.tenant, e.uploads)
              && bus.stream == old(bus.stream) + e.pubs
              && bus.pending == old(bus.pending) + Arrivals(e.pubs)
              && docId == (if e.ok then Some(n.docId) else None)
      ensures docId.Some? <==> bus.stream != old(bus.stream)
      ensures docId.Some? ==> |bus.stream| == |old(bus.stream)| + 1
      ensures docId.Some? ==> Announces(bus.stream[|old(bus.stream)|], q, docId.value)
    {
      var blobURI := "";
      var text, mime, size := q.text, q.mime, q.size;
      if Utf8Size(text) > MAX_DIRECT_TEXT_BYTES {
        if !upOk {
          return None;
        }
        blobURI := blobs.Upload(q.tenant, TextFilename(n), text);
        text := "";
        mime := "text/plain";
        size := |text|;
      }
      if q.file.Some? && size > 0 {
        if !upOk {
          return None;
        }
        blobURI := blobs.Upload(q.tenant, q.filename, q.file.value);
      }
      var payload := IngestPayload(n.docId, text, blobURI, mime, size);
      var env := NewEnvelope(q.tenant, q.corr, IngestRequested, "gateway", payload, n.corr);
      if env.None? {
        return None;
      }
      var failed := bus.Publish(Ingress, env.value, pubOk);
      if failed {
        return None;
      }
      return Some(n.docId);
    }

    /** SearchDocuments up to its wait: register, then publish, and on a failed publish clean up at once. */
    method BeginSearch(q: SearchRequest, corr: string, upOk: bool, pubOk: bool) returns (waiting: bool)
      requires corr !in pendingReqs
      modifies bus, blobs, this`pendingReqs
      ensures var e := SearchEffect(Memory, q, corr, upOk, pubOk);
              && blobs.store == AllUploaded(Memory, old(blobs.store), q.tenant, e.uploads)
              && bus.stream == old(bus.stream) + e.pubs
              && bus.pending == old(bus.pending) + Arrivals(e.pubs)
              && waiting == e.ok
      ensures pendingReqs == if waiting then old(pendingReqs)[corr := Call(q.tenant, None)] else old(pendingReqs)
    {
      var blobURI := "";
      if q.file.Some? && q.size > 0 {
        if !upOk {
          return false;
        }
        blobURI := blobs.Upload(q.tenant, q.filename, q.file.value);
      }
      var payload := SearchPayload(q.query, blobURI, q.topK, q.mime);
      var env := NewEnvelope(q.tenant, corr, SearchRequested, "gateway", payload, corr);
      if env.None? {
        return false;
      }
      pendingReqs := pendingReqs[corr := Call(q.tenant, None)];
      var failed := bus.Publish(Ingress, env.value, pubOk);
      if failed {
        pendingReqs := pendingReqs - {corr};
        return false;
      }
      return true;
    }

    /** The reply handler. It blocks, having done nothing, while the channel's one slot is taken. */
    method HandleReply(msg: Message) returns (err: bool, blocked: bool)
      requires msg.settled.None?
      modifies this`pendingReqs, msg
      ensures blocked <==>
              msg.env.correlationId in old(pendingReqs) && old(pendingReqs)[msg.env.correlationId].inbox.Some?
      ensures pendingReqs == if blocked then old(pendingReqs) else Delivered(old(pendingReqs), msg.env)
      ensures msg.settled == if !blocked && msg.reachable then Some(Acked) else None
      ensures !blocked ==> err == !msg.reachable
    {
      var corr := msg.env.correlationId;
      if corr !in pendingReqs {
        err := msg.Ack();
        return err, false;
      }
      if pendingReqs[corr].inbox.Some? {
        return false, true;
      }
      pendingReqs := pendingReqs[corr := pendingReqs[corr].(inbox := Some(msg.env))];
      err := msg.Ack();
      return err, false;
    }

    /** SearchDocuments from its select: take the reply or give up, and clean up either way. */
    method EndSearch(corr: string, timedOut: bool) returns (results: Option<seq<SearchResult>>)
      requires corr in pendingReqs
      requires !timedOut ==> pendingReqs[corr].inbox.Some?
      modifies this`pendingReqs
      ensures pendingReqs == old(pendingReqs) - {corr}
      ensures results == if timedOut then None
                         else Some(DecodeSearchCompleted(old(pendingReqs)[corr].inbox.value.data))
    {
      if timedOut {
        results := None;
      } else {
        results := Some(DecodeSearchCompleted(pendingReqs[corr].inbox.value.data));
      }
      pendingReqs := pendingReqs - {corr};
    }
  }

  /** A file sent along with an ingest is uploaded if and only if the text is at most 64 KB (or is that very text, under
      the very name generated for it). */
  lemma FileUploadedIff(b: Backend, q: IngestRequest, n: Names, pubOk: bool)
    requires q.file.Some? && q.size > 0
    ensures Upload(q.filename, q.file.value) in IngestEffect(b, q, n, true, pubOk).uploads <==>
            Utf8Size(q.text) <= 65536 || (q.filename == TextFilename(n) && q.file.value == q.text)
    ensures Utf8Size(q.text) <= 65536 ==>
              IngestEffect(b, q, n, true, pubOk).uploads == [Upload(q.filename, q.file.value)]
  {
  }

  /** A request uploads at most once, and what it publishes of a text fits on the bus. */
  lemma OneUploadAndBoundedText(b: Backend, q: IngestRequest, n: Names, upOk: bool, pubOk: bool)
    ensures var e := IngestEffect(b, q, n, upOk, pubOk);
            && |e.uploads| <= 1 && |e.pubs| <= 1
            && forall p | p in e.pubs ::
                 && p.env.typ == IngestRequested && p.env.data.IngestPayload?
                 && Utf8Size(p.env.data.contextText) <= 65536
                 && (Utf8Size(q.text) > 65536 ==>
                       && e.uploads == [Upload(TextFilename(n), q.text)]
                       && p.env.data.blobURI == Uri(b, q.tenant, TextFilename(n))
                       && p.env.data.contextText == "" && p.env.data.sizeBytes == 0)
  {
    assert Utf8Size("") == 0;
  }
}
