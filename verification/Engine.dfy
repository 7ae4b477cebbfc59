/** The engine: upserts embedded documents and answers embedded searches. */
module Engine {
  import opened Wrappers
  import opened Events
  import opened Bus
  import opened Environment
  import opened Cosine
  import opened VectorDB

  const DEFAULT_TOP_K := 5

  function RecordOf(docId: string, c: Chunk): Record {
    Record(docId, c.vector, c.text, c.blobURI, c.mimeType)
  }

  /** Upserting a list of chunks, one after the other. */
  function UpsertAll(store: Store, tenant: string, docId: string, chunks: seq<Chunk>): Store {
    if chunks == [] then store
    else
      var n := |chunks| - 1;
      Upserted(UpsertAll(store, tenant, docId, chunks[..n]), tenant, chunks[n].chunkId, RecordOf(docId, chunks[n]))
  }

  /** How many chunks the index accepts before it refuses one. */
  function Accepted(tenant: string, chunks: seq<Chunk>): (n: nat)
    ensures n <= |chunks|
  {
    if chunks == [] || tenant == "" || chunks[0].vector == [] then 0 else 1 + Accepted(tenant, chunks[1..])
  }

  function EffectiveTopK(k: int): nat {
    if k <= 0 then DEFAULT_TOP_K else k
  }

  function ToTransport(h: Hit): SearchResult {
    SearchResult(h.documentId, h.chunkId, h.score, h.text, h.fileURI, h.mimeType)
  }

  function AllToTransport(hits: seq<Hit>): seq<SearchResult> {
    seq(|hits|, i requires 0 <= i < |hits| => ToTransport(hits[i]))
  }

  /** `results` answer the query: they are a top-k of the tenant's slice, converted for transport. */
  ghost predicate IsAnswer(sqrt: real -> real, store: Store, tenant: string, q: Vector, k: nat,
                           results: seq<SearchResult>)
  {
    exists hits :: IsTopK(sqrt, Slice(store, tenant), q, k, hits) && results == AllToTransport(hits)
  }

  /** The envelope makes the engine consult the index. */
  predicate Searches(env: Envelope) {
    var p := DecodeEmbedCompleted(env.data);
    && env.typ == EmbedCompleted && p.originalType == SearchRequested
    && p.chunks != [] && env.tenantId != "" && p.chunks[0].vector != []
  }

  ghost predicate AnswersEnvelope(sqrt: real -> real, store: Store, env: Envelope, results: seq<SearchResult>) {
    var p := DecodeEmbedCompleted(env.data);
    Searches(env) ==>
      IsAnswer(sqrt, store, env.tenantId, p.chunks[0].vector, EffectiveTopK(p.searchTopK), results)
  }

  function Reply(env: Envelope, a: Answers): Option<Envelope> {
    NewEnvelope(env.tenantId, env.correlationId, SearchCompleted, "engine", SearchCompletedPayload(a.results), a.uuid)
  }

  function React(env: Envelope, a: Answers): Reaction {
    var p := DecodeEmbedCompleted(env.data);
    if env.typ != EmbedCompleted then Reaction([], Acked, {})
    else if p.originalType == IngestRequested then
      Reaction([], if Accepted(env.tenantId, p.chunks) == |p.chunks| then Acked else Nacked, {})
    else if p.originalType == SearchRequested then
      if p.chunks == [] then Reaction([], Termed, {})
      else if !Searches(env) then Reaction([], Nacked, {})
      else
        var sent := Attempt(Topic.Reply(env.correlationId), Reply(env, a).value, a.Up(0));
        Reaction(sent, if sent == [] then Nacked else Acked, {})
    else Reaction([], Acked, {})
  }

  /** What an engine delivery leaves in the index. */
  function StoreAfter(store: Store, env: Envelope): Store {
    var p := DecodeEmbedCompleted(env.data);
    if env.typ == EmbedCompleted && p.originalType == IngestRequested then
      UpsertAll(store, env.tenantId, p.documentId, p.chunks[..Accepted(env.tenantId, p.chunks)])
    else store
  }

  class Service {
    const bus: Client
    const db: MemoryVectorDB

    constructor (bus: Client, db: MemoryVectorDB)
      ensures this.bus == bus && this.db == db
    {
      this.bus := bus;
      this.db := db;
    }

    method HandleTask(msg: Message, a: Answers) returns (err: bool, results: seq<SearchResult>)
      requires msg.settled.None? && IsSqrt(db.sqrt)
      modifies bus, msg, db`store
      ensures AnswersEnvelope(db.sqrt, old(db.store), msg.env, results)
      ensures var r := React(msg.env, a.(results := results));
              && bus.stream == old(bus.stream) + r.emits
              && bus.pending == old(bus.pending) + Arrivals(r.emits)
              && msg.settled == (if msg.reachable then Some(r.settle) else None)
      ensures db.store == StoreAfter(old(db.store), msg.env)
      ensures err == !msg.reachable
    {
      results := [];
      var env := msg.env;
      if env.typ != EmbedCompleted {
        err := msg.Ack();
        return;
      }
      var payload := DecodeEmbedCompleted(env.data);
      if payload.originalType == IngestRequested {
        err := HandleUpsert(env, payload, msg);
      } else if payload.originalType == SearchRequested {
        err, results := HandleSearch(env, payload, msg, a);
      } else {
        err := msg.Ack();
      }
    }

    method HandleUpsert(env: Envelope, payload: Payload, msg: Message) returns (err: bool)
      requires payload.EmbedCompletedPayload? && msg.settled.None?
      modifies msg, db`store
      ensures var n := Accepted(env.tenantId, payload.chunks);
              && db.store == UpsertAll(old(db.store), env.tenantId, payload.documentId, payload.chunks[..n])
              && msg.settled == (if msg.reachable then Some(if n == |payload.chunks| then Acked else Nacked) else None)
      ensures err == !msg.reachable
    {
      var chunks := payload.chunks;
      for i := 0 to |chunks|
        invariant db.store == UpsertAll(old(db.store), env.tenantId, payload.documentId, chunks[..i])
        invariant Accepted(env.tenantId, chunks) == i + Accepted(env.tenantId, chunks[i..])
        invariant msg.settled.None?
      {
        assert chunks[..i + 1][..i] == chunks[..i] && chunks[i..][1..] == chunks[i + 1..];
        var failed := db.Upsert(env.tenantId, payload.documentId, chunks[i].chunkId, chunks[i].vector, chunks[i].text,
                                chunks[i].blobURI, chunks[i].mimeType);
        if failed.Some? {
          err := msg.Nack();
          return;
        }
      }
      assert chunks[..|chunks|] == chunks;
      err := msg.Ack();
    }

    method HandleSearch(env: Envelope, payload: Payload, msg: Message, a: Answers)
      returns (err: bool, results: seq<SearchResult>)
      requires env.typ == EmbedCompleted && payload == DecodeEmbedCompleted(env.data)
      requires payload.originalType == SearchRequested && msg.settled.None? && IsSqrt(db.sqrt)
      modifies bus, msg
      ensures AnswersEnvelope(db.sqrt, db.store, env, results)
      ensures var r := React(env, a.(results := results));
              && bus.stream == old(bus.stream) + r.emits
              && bus.pending == old(bus.pending) + Arrivals(r.emits)
              && msg.settled == (if msg.reachable then Some(r.settle) else None)
      ensures err == !msg.reachable
    {
      results := [];
      if |payload.chunks| == 0 {
        err := msg.Term();
        return;
      }
      var q := payload.chunks[0].vector;
      var topK := payload.searchTopK;
      if topK <= 0 {
        topK := DEFAULT_TOP_K;
      }
      var failed, hits := db.Search(env.tenantId, q, topK);
      if failed.Some? {
        err := msg.Nack();
        return;
      }
      for i := 0 to |hits|
        invariant |results| == i
        invariant forall j | 0 <= j < i :: results[j] == ToTransport(hits[j])
      {
        results := results + [SearchResult(hits[i].documentId, hits[i].chunkId, hits[i].score, hits[i].text,
                                           hits[i].fileURI, hits[i].mimeType)];
      }
      assert results == AllToTransport(hits);
      var reply := NewEnvelope(env.tenantId, env.correlationId, SearchCompleted, "engine",
                               SearchCompletedPayload(results), a.uuid);
      // The index has already refused the empty tenant, so the envelope was built.
      var lost := bus.Publish(Topic.Reply(env.correlationId), reply.value, a.Up(0));
      if lost {
        err := msg.Nack();
        return;
      }
      err := msg.Ack();
    }
  }

  /** The records a list of chunks leaves, the last one winning where chunk IDs repeat. */
  function Overlay(docId: string, chunks: seq<Chunk>): map<string, Record> {
    if chunks == [] then map[]
    else
      var n := |chunks| - 1;
      Overlay(docId, chunks[..n])[chunks[n].chunkId := RecordOf(docId, chunks[n])]
  }

  /** The index accepts the chunks up to the first that has no vector, and none at all without a tenant. */
  lemma {:induction false} AcceptedUpToRefused(tenant: string, chunks: seq<Chunk>)
    ensures forall i | 0 <= i < Accepted(tenant, chunks) :: tenant != "" && chunks[i].vector != []
    ensures Accepted(tenant, chunks) < |chunks| ==> tenant == "" || chunks[Accepted(tenant, chunks)].vector == []
  {
    if chunks != [] && tenant != "" && chunks[0].vector != [] {
      var rest := chunks[1..];
      AcceptedUpToRefused(tenant, rest);
      assert Accepted(tenant, rest) < |rest| ==> chunks[1 + Accepted(tenant, rest)] == rest[Accepted(tenant, rest)];
      forall i | 0 <= i < Accepted(tenant, chunks) ensures tenant != "" && chunks[i].vector != [] {
        assert i > 0 ==> chunks[i] == rest[i - 1];
      }
    } else {
      assert Accepted(tenant, chunks) == 0;
    }
  }

  lemma {:induction false} UpsertAllIsOverlay(store: Store, tenant: string, docId: string, chunks: seq<Chunk>)
    ensures UpsertAll(store, tenant, docId, chunks) ==
            if chunks == [] then store else store[tenant := Slice(store, tenant) + Overlay(docId, chunks)]
  {
    if chunks != [] {
      var n := |chunks| - 1;
      var before := chunks[..n];
      UpsertAllIsOverlay(store, tenant, docId, before);
      var id, rec := chunks[n].chunkId, RecordOf(docId, chunks[n]);
      var s, o := Slice(store, tenant), Overlay(docId, before);
      assert s + map[] == s;
      assert Slice(UpsertAll(store, tenant, docId, before), tenant) == s + o;
      assert (s + o)[id := rec] == s + o[id := rec];
    }
  }

  lemma {:induction false} OverlayPrefixKeys(docId: string, chunks: seq<Chunk>, k: nat)
    requires k <= |chunks|
    ensures Overlay(docId, chunks[..k]).Keys <= Overlay(docId, chunks).Keys
  {
    var n := |chunks| - 1;
    if k <= n {
      OverlayPrefixKeys(docId, chunks[..n], k);
      assert chunks[..n][..k] == chunks[..k];
    } else {
      assert chunks[..k] == chunks;
    }
  }

  lemma OverlayAbsorbs(s: map<string, Record>, p: map<string, Record>, f: map<string, Record>)
    requires p.Keys <= f.Keys
    ensures (s + p) + f == s + f
  {
  }

  /** A pass that stopped after any prefix is absorbed by a later full pass, even when chunk IDs repeat. */
  lemma RetryAbsorbed(store: Store, tenant: string, docId: string, chunks: seq<Chunk>, k: nat)
    requires k <= |chunks|
    ensures UpsertAll(UpsertAll(store, tenant, docId, chunks[..k]), tenant, docId, chunks) ==
            UpsertAll(store, tenant, docId, chunks)
  {
    var half := UpsertAll(store, tenant, docId, chunks[..k]);
    UpsertAllIsOverlay(store, tenant, docId, chunks[..k]);
    UpsertAllIsOverlay(half, tenant, docId, chunks);
    UpsertAllIsOverlay(store, tenant, docId, chunks);
    OverlayPrefixKeys(docId, chunks, k);
    var p := Overlay(docId, chunks[..k]);
    assert k == 0 ==> chunks[..k] == [] && half == store;
    OverlayAbsorbs(Slice(store, tenant), p, Overlay(docId, chunks));
    assert k > 0 ==> Slice(half, tenant) == Slice(store, tenant) + p;
  }

  /** No upsert ever removes a key, of any tenant. */
  lemma KeysKept(store: Store, tenant: string, docId: string, chunks: seq<Chunk>, t: string)
    ensures Slice(store, t).Keys <= Slice(UpsertAll(store, tenant, docId, chunks), t).Keys
  {
    UpsertAllIsOverlay(store, tenant, docId, chunks);
  }
}
