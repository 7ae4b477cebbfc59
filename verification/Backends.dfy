/** Infrastructural polymorphism: runs over the memory blob store and over S3 simulate each other, step for step, under
    the exchange of the two URI prefixes. */
module Backends {
  import opened Wrappers
  import opened Events
  import opened Bus
  import opened Blobs
  import opened Environment
  import opened VectorDB
  import opened Gateway
  import opened Protocol
  import opened Provenance
  import opened Invariant
  import opened Identity
  import Router
  import Embedder
  import Vision
  import Chunker
  import Engine
  import Isolation
  import Ledger
  import Linearizability

  /** Exchanges the memory prefix and a bucket's prefix; every other string is left alone. */
  function Swap(bucket: string, uri: string): string {
    var m, p := Prefix(Memory), Prefix(S3(bucket));
    if m <= uri then p + uri[|m|..] else if p <= uri then m + uri[|p|..] else uri
  }

  function Other(bucket: string, b: Backend): Backend {
    if b.Memory? then S3(bucket) else Memory
  }

  ghost predicate OneOf(bucket: string, b: Backend) {
    b == Memory || b == S3(bucket)
  }

  lemma SwapInvolutive(bucket: string, uri: string)
    ensures Swap(bucket, Swap(bucket, uri)) == uri
    ensures Swap(bucket, uri) == "" <==> uri == ""
  {
    var m, p := Prefix(Memory), Prefix(S3(bucket));
    assert m[0] == 'm' && p[0] == 's';
    if m <= uri {
      assert uri == m + uri[|m|..] && (p + uri[|m|..])[|p|..] == uri[|m|..];
    } else if p <= uri {
      assert uri == p + uri[|p|..] && (m + uri[|p|..])[|m|..] == uri[|p|..];
    }
  }

  lemma SwapUri(bucket: string, b: Backend, t: string, f: string)
    requires OneOf(bucket, b)
    ensures Swap(bucket, Uri(b, t, f)) == Uri(Other(bucket, b), t, f)
  {
    var m, p, k := Prefix(Memory), Prefix(S3(bucket)), ObjectKey(t, f);
    assert m[0] == 'm' && p[0] == 's';
    assert (m + k)[|m|..] == k && (p + k)[|p|..] == k;
    assert (m + k)[..|m|] == m && (p + k)[..|p|] == p;
    assert (p + k)[0] == 's';
  }

  function SwapChunk(bucket: string, c: Chunk): Chunk {
    c.(blobURI := Swap(bucket, c.blobURI))
  }

  function SwapChunks(bucket: string, cs: seq<Chunk>): seq<Chunk> {
    seq(|cs|, i requires 0 <= i < |cs| => SwapChunk(bucket, cs[i]))
  }

  function SwapResults(bucket: string, rs: seq<SearchResult>): seq<SearchResult> {
    seq(|rs|, i requires 0 <= i < |rs| => rs[i].(blobURI := Swap(bucket, rs[i].blobURI)))
  }

  function SwapPayload(bucket: string, p: Payload): Payload {
    match p
    case IngestPayload(d, t, u, m, n) => IngestPayload(d, t, Swap(bucket, u), m, n)
    case SearchPayload(q, u, k, m) => SearchPayload(q, Swap(bucket, u), k, m)
    case EmbedRequestedPayload(d, c, t, u, m, o) => EmbedRequestedPayload(d, c, t, Swap(bucket, u), m, o)
    case EmbedCompletedPayload(d, cs, o, k) => EmbedCompletedPayload(d, SwapChunks(bucket, cs), o, k)
    case SearchCompletedPayload(rs) => SearchCompletedPayload(SwapResults(bucket, rs))
    case NoPayload => NoPayload
  }

  function SwapEnv(bucket: string, e: Envelope): Envelope {
    e.(data := SwapPayload(bucket, e.data))
  }

  function SwapPub(bucket: string, p: Pub): Pub {
    Pub(p.topic, SwapEnv(bucket, p.env))
  }

  function SwapPubs(bucket: string, ps: seq<Pub>): seq<Pub> {
    seq(|ps|, i requires 0 <= i < |ps| => SwapPub(bucket, ps[i]))
  }

  function SwapMsg(bucket: string, m: Msg): Msg {
    m.(env := SwapEnv(bucket, m.env))
  }

  function SwapAnswers(bucket: string, a: Answers): Answers {
    a.(results := SwapResults(bucket, a.results))
  }

  function SwapRecord(bucket: string, r: Record): Record {
    r.(fileURI := Swap(bucket, r.fileURI))
  }

  function SwapSlice(bucket: string, s: map<string, Record>): map<string, Record> {
    map id | id in s :: SwapRecord(bucket, s[id])
  }

  function SwapStore(bucket: string, s: Store): Store {
    map t | t in s :: SwapSlice(bucket, s[t])
  }

  function SwapCall(bucket: string, c: Call): Call {
    if c.inbox.Some? then c.(inbox := Some(SwapEnv(bucket, c.inbox.value))) else c
  }

  function SwapCalls(bucket: string, cs: Calls): Calls {
    map c | c in cs :: SwapCall(bucket, cs[c])
  }

  /** The same step over the other backend: requests are untouched, URIs in messages and results are exchanged. */
  function SwapLabel(bucket: string, l: Label): Label {
    match l
    case Ingest(_, _, _, _) => l
    case Search(_, _, _, _) => l
    case Deliver(m, a) => Deliver(SwapMsg(bucket, m), SwapAnswers(bucket, a))
    case Return(t, c, rs) => Return(t, c, SwapResults(bucket, rs))
    case Timeout(_, _) => l
    case Restart(_, _, _) => l
  }

  function SwapRun(bucket: string, run: seq<Label>): seq<Label> {
    seq(|run|, i requires 0 <= i < |run| => SwapLabel(bucket, run[i]))
  }

  lemma SwapPayloadInvolutive(bucket: string, p: Payload)
    ensures SwapPayload(bucket, SwapPayload(bucket, p)) == p
  {
    SwapInvolutive(bucket, BlobURI(p));
    if p.EmbedCompletedPayload? {
      forall i | 0 <= i < |p.chunks| ensures SwapChunk(bucket, SwapChunk(bucket, p.chunks[i])) == p.chunks[i] {
        SwapInvolutive(bucket, p.chunks[i].blobURI);
      }
      assert SwapChunks(bucket, SwapChunks(bucket, p.chunks)) == p.chunks;
    }
    if p.SearchCompletedPayload? {
      SwapResultsInvolutive(bucket, p.results);
    }
  }

  lemma SwapResultsInvolutive(bucket: string, rs: seq<SearchResult>)
    ensures SwapResults(bucket, SwapResults(bucket, rs)) == rs
  {
    forall i | 0 <= i < |rs| ensures SwapResults(bucket, SwapResults(bucket, rs))[i] == rs[i] {
      SwapInvolutive(bucket, rs[i].blobURI);
    }
  }

  lemma SwapMsgInvolutive(bucket: string, m: Msg)
    ensures SwapMsg(bucket, SwapMsg(bucket, m)) == m
  {
    SwapPayloadInvolutive(bucket, m.env.data);
  }

  /** z is s with every URI exchanged. */
  ghost predicate Twins(bucket: string, w: World, s: State, v: World, z: State) {
    && OneOf(bucket, w.backend) && v == w.(backend := Other(bucket, w.backend))
    && z.stream == SwapPubs(bucket, s.stream)
    && TwinPending(bucket, s.pending, z.pending)
    && z.store == SwapStore(bucket, s.store)
    && TwinBlobs(w.backend, s.blobs, v.backend, z.blobs)
    && z.calls == SwapCalls(bucket, s.calls)
    && z.hist.used == s.hist.used
  }

  ghost predicate TwinPending(bucket: string, a: multiset<Msg>, b: multiset<Msg>) {
    forall m: Msg :: b[SwapMsg(bucket, m)] == a[m]
  }

  ghost predicate TwinBlobs(b: Backend, a: Objects, c: Backend, z: Objects) {
    forall t, f :: Download(c, z, Uri(c, t, f)) == Download(b, a, Uri(b, t, f))
  }

  // The handlers commute with the exchange.

  lemma SwapDecode(bucket: string, p: Payload)
    ensures DecodeIngest(SwapPayload(bucket, p)) == SwapPayload(bucket, DecodeIngest(p))
    ensures DecodeSearch(SwapPayload(bucket, p)) == SwapPayload(bucket, DecodeSearch(p))
    ensures DecodeEmbedRequested(SwapPayload(bucket, p)) == SwapPayload(bucket, DecodeEmbedRequested(p))
    ensures DecodeEmbedCompleted(SwapPayload(bucket, p)) == SwapPayload(bucket, DecodeEmbedCompleted(p))
    ensures DecodeSearchCompleted(SwapPayload(bucket, p)) == SwapResults(bucket, DecodeSearchCompleted(p))
    ensures DocumentID(SwapPayload(bucket, p)) == DocumentID(p)
    ensures BlobURI(SwapPayload(bucket, p)) == Swap(bucket, BlobURI(p))
  {
    SwapInvolutive(bucket, "");
    assert SwapChunks(bucket, []) == [];
    assert SwapResults(bucket, []) == [];
  }

  ghost predicate SwapsTo(bucket: string, r: Reaction, q: Reaction) {
    q.emits == SwapPubs(bucket, r.emits) && q.settle == r.settle
  }

  lemma SwapAttempt(bucket: string, t: Topic, e: Envelope, up: bool)
    ensures Attempt(t, SwapEnv(bucket, e), up) == SwapPubs(bucket, Attempt(t, e, up))
  {
  }

  lemma ClassifySwap(bucket: string, e: Envelope)
    ensures Router.Classify(SwapEnv(bucket, e)) == Router.Classify(e)
  {
    SwapDecode(bucket, e.data);
    SwapInvolutive(bucket, BlobURI(e.data));
  }

  lemma RouterSwap(bucket: string, e: Envelope, a: Answers)
    ensures SwapsTo(bucket, Router.React(e, a), Router.React(SwapEnv(bucket, e), SwapAnswers(bucket, a)))
  {
    ClassifySwap(bucket, e);
    match Router.Classify(e)
    case NoRoute => SwapAttempt(bucket, Dlq, e, a.Up(0));
    case Drop =>
    case Forward(t) => SwapAttempt(bucket, t, e, a.Up(0));
  }

  function SwapJob(bucket: string, j: Embedder.Job): Embedder.Job {
    j.(blobURI := Swap(bucket, j.blobURI))
  }

  lemma EmbedJobSwap(bucket: string, e: Envelope)
    ensures var j := Embedder.JobOf(e);
            Embedder.JobOf(SwapEnv(bucket, e)) == if j.None? then None else Some(SwapJob(bucket, j.value))
  {
    SwapDecode(bucket, e.data);
  }

  lemma EmbedCompletedSwap(bucket: string, e: Envelope, j: Embedder.Job, vec: Vector, uuid: string)
    ensures Embedder.Completed(SwapEnv(bucket, e), SwapJob(bucket, j), vec, uuid) ==
            SwapEnv(bucket, Embedder.Completed(e, j, vec, uuid))
  {
    var c := Chunk(j.chunkId, vec, j.text, j.blobURI, j.mimeType);
    assert SwapChunks(bucket, [c]) == [SwapChunk(bucket, c)];
  }

  lemma EmbedderSwap(bucket: string, vectorise: string -> Vector, e: Envelope, a: Answers)
    ensures SwapsTo(bucket, Embedder.React(vectorise, e, a),
                    Embedder.React(vectorise, SwapEnv(bucket, e), SwapAnswers(bucket, a)))
  {
    EmbedJobSwap(bucket, e);
    var j := Embedder.JobOf(e);
    if j.Some? {
      var vec := vectorise(j.value.text);
      EmbedCompletedSwap(bucket, e, j.value, vec, a.uuid);
      SwapAttempt(bucket, Ingress, Embedder.Completed(e, j.value, vec, a.uuid), a.Up(0));
    }
  }

  lemma VisionJobSwap(bucket: string, e: Envelope)
    ensures var j := Vision.JobOf(e);
            Vision.JobOf(SwapEnv(bucket, e)) ==
            if j.None? then None else Some(j.value.(blobURI := Swap(bucket, j.value.blobURI)))
    ensures Vision.JobOf(e).Some? ==> Vision.JobOf(e).value.blobURI == BlobURI(e.data)
  {
    SwapDecode(bucket, e.data);
  }

  lemma VisionSwap(bucket: string, w: World, s: State, v: World, z: State, e: Envelope, a: Answers)
    requires v.describe == w.describe
    requires Download(v.backend, z.blobs, Swap(bucket, BlobURI(e.data))) ==
             Download(w.backend, s.blobs, BlobURI(e.data))
    ensures SwapsTo(bucket, Vision.React(w.backend, w.describe, s.blobs, e, a),
                    Vision.React(v.backend, v.describe, z.blobs, SwapEnv(bucket, e), SwapAnswers(bucket, a)))
  {
    VisionJobSwap(bucket, e);
    var j := Vision.JobOf(e);
    if j.Some? {
      var image := Download(w.backend, s.blobs, j.value.blobURI);
      if image.Some? {
        SwapAttempt(bucket, Ingress, Vision.Completed(e, j.value, w.describe(image.value), a.uuid), a.Up(0));
      }
    }
  }

  lemma WindowSwap(bucket: string, e: Envelope, id: string, text: string, uuid: string)
    ensures Chunker.Completed(SwapEnv(bucket, e), id, text, uuid) ==
            SwapEnv(bucket, Chunker.Completed(e, id, text, uuid))
  {
    SwapDecode(bucket, e.data);
  }

  lemma {:induction false} EmitsSwap(bucket: string, e: Envelope, texts: seq<string>, a: Answers)
    ensures Chunker.Emits(SwapEnv(bucket, e), texts, SwapAnswers(bucket, a)) ==
            SwapPubs(bucket, Chunker.Emits(e, texts, a))
  {
    if texts != [] {
      var n := |texts| - 1;
      EmitsSwap(bucket, e, texts[..n], a);
      WindowSwap(bucket, e, a.Id(n), texts[n], a.uuid);
      var out := Chunker.Completed(e, a.Id(n), texts[n], a.uuid);
      SwapAttempt(bucket, Ingress, out, a.Up(n));
      SwapPubsAppend(bucket, Chunker.Emits(e, texts[..n], a), Attempt(Ingress, out, a.Up(n)));
    }
  }

  lemma SwapPubsAppend(bucket: string, a: seq<Pub>, b: seq<Pub>)
    ensures SwapPubs(bucket, a + b) == SwapPubs(bucket, a) + SwapPubs(bucket, b)
  {
  }

  lemma ChunkerSwap(bucket: string, w: World, s: State, v: World, z: State, e: Envelope, a: Answers)
    requires Download(v.backend, z.blobs, Swap(bucket, BlobURI(e.data))) ==
             Download(w.backend, s.blobs, BlobURI(e.data))
    ensures SwapsTo(bucket, Chunker.React(w.backend, s.blobs, e, a),
                    Chunker.React(v.backend, z.blobs, SwapEnv(bucket, e), SwapAnswers(bucket, a)))
    ensures Chunker.Texts(v.backend, z.blobs, SwapEnv(bucket, e)) == Chunker.Texts(w.backend, s.blobs, e)
  {
    SwapDecode(bucket, e.data);
    var all := Chunker.Texts(w.backend, s.blobs, e);
    EmitsSwap(bucket, e, all[..a.Reached(|all|)], a);
  }

  lemma {:induction false} AcceptedSwap(bucket: string, tenant: string, cs: seq<Chunk>)
    ensures Engine.Accepted(tenant, SwapChunks(bucket, cs)) == Engine.Accepted(tenant, cs)
  {
    if cs != [] {
      AcceptedSwap(bucket, tenant, cs[1..]);
      assert SwapChunks(bucket, cs)[1..] == SwapChunks(bucket, cs[1..]);
    }
  }

  lemma EngineSwap(bucket: string, e: Envelope, a: Answers)
    ensures SwapsTo(bucket, Engine.React(e, a), Engine.React(SwapEnv(bucket, e), SwapAnswers(bucket, a)))
    ensures Engine.Searches(SwapEnv(bucket, e)) == Engine.Searches(e)
  {
    SwapDecode(bucket, e.data);
    var p := DecodeEmbedCompleted(e.data);
    AcceptedSwap(bucket, e.tenantId, p.chunks);
    assert p.chunks != [] ==> SwapChunks(bucket, p.chunks)[0] == SwapChunk(bucket, p.chunks[0]);
    if Engine.Searches(e) {
      SwapAttempt(bucket, Topic.Reply(e.correlationId), Engine.Reply(e, a).value, a.Up(0));
    }
  }

  lemma UpsertedSwap(bucket: string, s: Store, t: string, id: string, rec: Record)
    ensures SwapStore(bucket, Upserted(s, t, id, rec)) == Upserted(SwapStore(bucket, s), t, id, SwapRecord(bucket, rec))
  {
    assert Slice(SwapStore(bucket, s), t) == SwapSlice(bucket, Slice(s, t));
    assert SwapSlice(bucket, Slice(s, t)[id := rec]) == SwapSlice(bucket, Slice(s, t))[id := SwapRecord(bucket, rec)];
  }

  lemma {:induction false} UpsertAllSwap(bucket: string, s: Store, t: string, d: string, cs: seq<Chunk>)
    ensures SwapStore(bucket, Engine.UpsertAll(s, t, d, cs)) ==
            Engine.UpsertAll(SwapStore(bucket, s), t, d, SwapChunks(bucket, cs))
  {
    if cs != [] {
      var n := |cs| - 1;
      UpsertAllSwap(bucket, s, t, d, cs[..n]);
      assert SwapChunks(bucket, cs)[..n] == SwapChunks(bucket, cs[..n]);
      UpsertedSwap(bucket, Engine.UpsertAll(s, t, d, cs[..n]), t, cs[n].chunkId, Engine.RecordOf(d, cs[n]));
    }
  }

  lemma StoreAfterSwap(bucket: string, s: Store, e: Envelope)
    ensures Engine.StoreAfter(SwapStore(bucket, s), SwapEnv(bucket, e)) == SwapStore(bucket, Engine.StoreAfter(s, e))
  {
    SwapDecode(bucket, e.data);
    var p := DecodeEmbedCompleted(e.data);
    var n := Engine.Accepted(e.tenantId, p.chunks);
    AcceptedSwap(bucket, e.tenantId, p.chunks);
    UpsertAllSwap(bucket, s, e.tenantId, p.documentId, p.chunks[..n]);
    assert SwapChunks(bucket, p.chunks)[..n] == SwapChunks(bucket, p.chunks[..n]);
  }

  function SwapHits(bucket: string, hits: seq<Hit>): seq<Hit> {
    seq(|hits|, i requires 0 <= i < |hits| => hits[i].(fileURI := Swap(bucket, hits[i].fileURI)))
  }

  lemma HitsSwap(bucket: string, sqrt: real -> real, slice: map<string, Record>, q: Vector, hits: seq<Hit>)
    requires AllHits(sqrt, slice, q, hits)
    ensures Candidates(SwapSlice(bucket, slice), q) == Candidates(slice, q)
    ensures AllHits(sqrt, SwapSlice(bucket, slice), q, SwapHits(bucket, hits))
  {
    var z, hs := SwapSlice(bucket, slice), SwapHits(bucket, hits);
    assert Candidates(z, q) == Candidates(slice, q);
    forall h | h in hs ensures h.chunkId in Candidates(z, q) && h == HitOf(sqrt, z, q, h.chunkId) {
      var i :| 0 <= i < |hs| && hs[i] == h;
      assert hits[i] in hits;
    }
  }

  lemma IdsSwap(bucket: string, hits: seq<Hit>)
    ensures Ids(SwapHits(bucket, hits)) == Ids(hits)
  {
    var hs := SwapHits(bucket, hits);
    forall id ensures id in Ids(hs) <==> id in Ids(hits) {
      if id in Ids(hits) {
        var i :| 0 <= i < |hits| && hits[i].chunkId == id;
        assert hs[i].chunkId == id;
      }
    }
  }

  lemma OrderSwap(bucket: string, hits: seq<Hit>)
    requires DistinctIds(hits) && Descending(hits)
    ensures DistinctIds(SwapHits(bucket, hits)) && Descending(SwapHits(bucket, hits))
  {
  }

  lemma TopKSwap(bucket: string, sqrt: real -> real, slice: map<string, Record>, q: Vector, k: nat, hits: seq<Hit>)
    requires IsTopK(sqrt, slice, q, k, hits)
    ensures IsTopK(sqrt, SwapSlice(bucket, slice), q, k, SwapHits(bucket, hits))
  {
    HitsSwap(bucket, sqrt, slice, q, hits);
    IdsSwap(bucket, hits);
    OrderSwap(bucket, hits);
    var z, hs := SwapSlice(bucket, slice), SwapHits(bucket, hits);
    forall id, i | id in Candidates(z, q) && id !in Ids(hs) && 0 <= i < |hs|
      ensures Score(sqrt, z, q, id) <= hs[i].score
    {
      assert Score(sqrt, slice, q, id) <= hits[i].score;
    }
  }

  lemma AnswerSwap(bucket: string, sqrt: real -> real, s: Store, t: string, q: Vector, k: nat, rs: seq<SearchResult>)
    requires Engine.IsAnswer(sqrt, s, t, q, k, rs)
    ensures Engine.IsAnswer(sqrt, SwapStore(bucket, s), t, q, k, SwapResults(bucket, rs))
  {
    var hits :| IsTopK(sqrt, Slice(s, t), q, k, hits) && rs == Engine.AllToTransport(hits);
    TopKSwap(bucket, sqrt, Slice(s, t), q, k, hits);
    assert Slice(SwapStore(bucket, s), t) == SwapSlice(bucket, Slice(s, t));
    assert SwapResults(bucket, rs) == Engine.AllToTransport(SwapHits(bucket, hits));
  }

  // One step over one backend is the exchanged step over the other.

  lemma DownloadSwap(bucket: string, w: World, s: State, v: World, z: State, r: Root)
    requires Twins(bucket, w, s, v, z) && Inv(w, s) && Inv(v, z) && Pub(Ingress, r) in s.stream
    ensures Download(v.backend, z.blobs, Swap(bucket, r.data.blobURI)) ==
            Download(w.backend, s.blobs, r.data.blobURI)
  {
    assert RootUriOk(w, s, Pub(Ingress, r).env);
    SwapInvolutive(bucket, r.data.blobURI);
    if r.data.blobURI == "" {
      EmptyUri(w, s);
      EmptyUri(v, z);
    } else {
      var f :| r.data.blobURI == Uri(w.backend, r.tenantId, f);
      SwapUri(bucket, w.backend, r.tenantId, f);
    }
  }

  ghost predicate TwinDownload(bucket: string, w: World, s: State, v: World, z: State, m: Msg) {
    m.topic == TaskVision || m.topic == TaskChunk ==>
      Download(v.backend, z.blobs, Swap(bucket, BlobURI(m.env.data))) ==
      Download(w.backend, s.blobs, BlobURI(m.env.data))
  }

  lemma MessageDownload(bucket: string, w: World, s: State, v: World, z: State, m: Msg)
    requires Twins(bucket, w, s, v, z) && Inv(w, s) && Inv(v, z) && m in s.pending
    ensures TwinDownload(bucket, w, s, v, z, m)
  {
    if m.topic == TaskVision || m.topic == TaskChunk {
      var x := PlaceOf(w, s, m);
      Isolation.AtRootTopic(w, x, m);
      DownloadSwap(bucket, w, s, v, z, x.root);
    }
  }

  lemma ReactSwap(bucket: string, w: World, s: State, v: World, z: State, m: Msg, a: Answers)
    requires v == w.(backend := Other(bucket, w.backend)) && TwinDownload(bucket, w, s, v, z, m)
    ensures SwapsTo(bucket, React(w, s, m, a), React(v, z, SwapMsg(bucket, m), SwapAnswers(bucket, a)))
  {
    match m.topic
    case Ingress => RouterSwap(bucket, m.env, a);
    case TaskVision => VisionSwap(bucket, w, s, v, z, m.env, a);
    case TaskChunk => ChunkerSwap(bucket, w, s, v, z, m.env, a);
    case TaskEmbed => EmbedderSwap(bucket, w.vectorise, m.env, a);
    case TaskEngine => EngineSwap(bucket, m.env, a);
    case Reply(_) =>
    case Dlq =>
  }

  lemma NamedSwap(bucket: string, w: World, s: State, v: World, z: State, m: Msg, a: Answers)
    requires v == w.(backend := Other(bucket, w.backend)) && TwinDownload(bucket, w, s, v, z, m)
    ensures Named(v, z, SwapMsg(bucket, m), SwapAnswers(bucket, a)) == Named(w, s, m, a)
  {
    if m.topic == TaskChunk {
      ChunkerSwap(bucket, w, s, v, z, m.env, a);
    }
  }

  lemma RequestSwap(bucket: string, b: Backend, l: Label)
    requires OneOf(bucket, b)
    ensures l.Ingest? ==>
              var e := IngestEffect(b, l.q, l.n, l.upOk, l.pubOk);
              IngestEffect(Other(bucket, b), l.q, l.n, l.upOk, l.pubOk) == e.(pubs := SwapPubs(bucket, e.pubs))
    ensures l.Search? ==>
              var e := SearchEffect(b, l.s, l.corr, l.upOk, l.pubOk);
              SearchEffect(Other(bucket, b), l.s, l.corr, l.upOk, l.pubOk) == e.(pubs := SwapPubs(bucket, e.pubs))
  {
    SwapInvolutive(bucket, "");
    if l.Ingest? {
      SwapUri(bucket, b, l.q.tenant, l.q.filename);
      SwapUri(bucket, b, l.q.tenant, TextFilename(l.n));
    }
    if l.Search? {
      SwapUri(bucket, b, l.s.tenant, l.s.filename);
    }
  }

  lemma EmittedSwap(bucket: string, w: World, s: State, v: World, z: State, l: Label)
    requires OneOf(bucket, w.backend) && v == w.(backend := Other(bucket, w.backend))
    requires l.Deliver? ==> TwinDownload(bucket, w, s, v, z, l.m)
    ensures Emitted(v, z, SwapLabel(bucket, l)) == SwapPubs(bucket, Emitted(w, s, l))
    ensures UploadsOf(v, SwapLabel(bucket, l)) == UploadsOf(w, l)
  {
    if l.Deliver? {
      ReactSwap(bucket, w, s, v, z, l.m, l.a);
    } else {
      RequestSwap(bucket, w.backend, l);
    }
  }

  lemma StreamTwin(bucket: string, w: World, s: State, v: World, z: State, l: Label)
    requires z.stream == SwapPubs(bucket, s.stream)
    requires Emitted(v, z, SwapLabel(bucket, l)) == SwapPubs(bucket, Emitted(w, s, l))
    ensures Next(v, z, SwapLabel(bucket, l)).stream == SwapPubs(bucket, Next(w, s, l).stream)
  {
    StreamAfter(w, s, l);
    StreamAfter(v, z, SwapLabel(bucket, l));
    SwapPubsAppend(bucket, s.stream, Emitted(w, s, l));
  }

  lemma SameUriOnBoth(b: Backend, c: Backend, t1: string, f1: string, t2: string, f2: string)
    ensures Uri(b, t1, f1) == Uri(b, t2, f2) <==> Uri(c, t1, f1) == Uri(c, t2, f2)
  {
    forall d: Backend ensures Uri(d, t1, f1) == Uri(d, t2, f2) <==> ObjectKey(t1, f1) == ObjectKey(t2, f2) {
      assert Uri(d, t1, f1)[|Prefix(d)|..] == ObjectKey(t1, f1);
      assert Uri(d, t2, f2)[|Prefix(d)|..] == ObjectKey(t2, f2);
    }
  }

  lemma {:induction false} UploadsTwin(b: Backend, a: Objects, c: Backend, z: Objects, tenant: string, us: seq<Upload>)
    requires TwinBlobs(b, a, c, z)
    ensures TwinBlobs(b, AllUploaded(b, a, tenant, us), c, AllUploaded(c, z, tenant, us))
  {
    if us != [] {
      var n := |us| - 1;
      UploadsTwin(b, a, c, z, tenant, us[..n]);
      var x, y := AllUploaded(b, a, tenant, us[..n]), AllUploaded(c, z, tenant, us[..n]);
      forall t, f
        ensures Download(c, Uploaded(c, y, tenant, us[n].filename, us[n].content), Uri(c, t, f)) ==
                Download(b, Uploaded(b, x, tenant, us[n].filename, us[n].content), Uri(b, t, f))
      {
        DownloadAfterUpload(b, x, tenant, us[n].filename, us[n].content, t, f);
        DownloadAfterUpload(c, y, tenant, us[n].filename, us[n].content, t, f);
        SameUriOnBoth(b, c, t, f, tenant, us[n].filename);
      }
    }
  }

  /** The step does not lose the memory store's blobs. */
  predicate KeepsBlobs(l: Label) {
    l.Restart? ==> !l.objects
  }

  lemma BlobsTwin(bucket: string, w: World, s: State, v: World, z: State, l: Label)
    requires KeepsBlobs(l)
    requires TwinBlobs(w.backend, s.blobs, v.backend, z.blobs) && UploadsOf(v, SwapLabel(bucket, l)) == UploadsOf(w, l)
    ensures TwinBlobs(w.backend, Next(w, s, l).blobs, v.backend, Next(v, z, SwapLabel(bucket, l)).blobs)
  {
    VersionsAfter(w, s, l);
    VersionsAfter(v, z, SwapLabel(bucket, l));
    var (t, us) := UploadsOf(w, l);
    UploadsTwin(w.backend, s.blobs, v.backend, z.blobs, t, us);
  }

  // The queue.

  lemma SwapMsgInjective(bucket: string, m: Msg, n: Msg)
    ensures SwapMsg(bucket, m) == SwapMsg(bucket, n) <==> m == n
  {
    SwapMsgInvolutive(bucket, m);
    SwapMsgInvolutive(bucket, n);
  }

  lemma ArrivalTwin(bucket: string, p: Pub, m: Msg)
    ensures Arrival(SwapPub(bucket, p))[SwapMsg(bucket, m)] == Arrival(p)[m]
  {
    SwapMsgInjective(bucket, m, Msg(p.topic, p.env, MAX_DELIVER));
  }

  lemma SwapPubsOneMore(bucket: string, pubs: seq<Pub>, p: Pub)
    ensures SwapPubs(bucket, pubs + [p]) == SwapPubs(bucket, pubs) + [SwapPub(bucket, p)]
  {
  }

  lemma ArrivalsTwinOneMore(bucket: string, pubs: seq<Pub>, p: Pub, m: Msg)
    requires Arrivals(SwapPubs(bucket, pubs))[SwapMsg(bucket, m)] == Arrivals(pubs)[m]
    ensures Arrivals(SwapPubs(bucket, pubs + [p]))[SwapMsg(bucket, m)] == Arrivals(pubs + [p])[m]
  {
    ArrivalTwin(bucket, p, m);
    ArrivalsAppend(pubs, p);
    ArrivalsAppend(SwapPubs(bucket, pubs), SwapPub(bucket, p));
    SwapPubsOneMore(bucket, pubs, p);
  }

  lemma {:induction false} ArrivalsTwin(bucket: string, pubs: seq<Pub>, m: Msg)
    ensures Arrivals(SwapPubs(bucket, pubs))[SwapMsg(bucket, m)] == Arrivals(pubs)[m]
  {
    if pubs == [] {
      assert SwapPubs(bucket, pubs) == [];
    } else {
      var init, p := pubs[..|pubs| - 1], pubs[|pubs| - 1];
      assert pubs == init + [p];
      ArrivalsTwin(bucket, init, m);
      ArrivalsTwinOneMore(bucket, init, p, m);
    }
  }

  lemma RedeliveryTwin(bucket: string, m: Msg, settled: Option<Settlement>, n: Msg)
    ensures Redelivery(SwapMsg(bucket, m), settled)[SwapMsg(bucket, n)] == Redelivery(m, settled)[n]
  {
    if m.left > 1 {
      SwapMsgInjective(bucket, m.(left := m.left - 1), n);
    }
  }

  lemma DeliveredPendingTwin(bucket: string, s: State, z: State, r: Reaction, q: Reaction, m: Msg, a: Answers)
    requires TwinPending(bucket, s.pending, z.pending) && SwapsTo(bucket, r, q)
    ensures TwinPending(bucket, Isolation.PendingAfter(s, r, m, a),
                        Isolation.PendingAfter(z, q, SwapMsg(bucket, m), SwapAnswers(bucket, a)))
  {
    forall n: Msg
      ensures Isolation.PendingAfter(z, q, SwapMsg(bucket, m), SwapAnswers(bucket, a))[SwapMsg(bucket, n)] ==
              Isolation.PendingAfter(s, r, m, a)[n]
    {
      ArrivalsTwin(bucket, r.emits, n);
      RedeliveryTwin(bucket, m, Settled(r, a), n);
      SwapMsgInjective(bucket, m, n);
      assert z.pending[SwapMsg(bucket, n)] == s.pending[n];
    }
  }

  lemma RequestPendingTwin(bucket: string, a: multiset<Msg>, b: multiset<Msg>, pubs: seq<Pub>)
    requires TwinPending(bucket, a, b)
    ensures TwinPending(bucket, a + Arrivals(pubs), b + Arrivals(SwapPubs(bucket, pubs)))
  {
    forall n: Msg ensures (b + Arrivals(SwapPubs(bucket, pubs)))[SwapMsg(bucket, n)] == (a + Arrivals(pubs))[n] {
      ArrivalsTwin(bucket, pubs, n);
      assert b[SwapMsg(bucket, n)] == a[n];
    }
  }

  lemma PendingTwin(bucket: string, w: World, s: State, v: World, z: State, l: Label)
    requires TwinPending(bucket, s.pending, z.pending) && v == w.(backend := Other(bucket, w.backend))
    requires l.Deliver? ==> TwinDownload(bucket, w, s, v, z, l.m)
    requires Emitted(v, z, SwapLabel(bucket, l)) == SwapPubs(bucket, Emitted(w, s, l))
    ensures TwinPending(bucket, Next(w, s, l).pending, Next(v, z, SwapLabel(bucket, l)).pending)
  {
    if l.Deliver? {
      ReactSwap(bucket, w, s, v, z, l.m, l.a);
      DeliveredPendingTwin(bucket, s, z, React(w, s, l.m, l.a),
                           React(v, z, SwapMsg(bucket, l.m), SwapAnswers(bucket, l.a)), l.m, l.a);
      Isolation.PendingIs(w, s, l.m, l.a);
      Isolation.PendingIs(v, z, SwapMsg(bucket, l.m), SwapAnswers(bucket, l.a));
    } else {
      RequestPendingTwin(bucket, s.pending, z.pending, Emitted(w, s, l));
      Ledger.PendingAfterRequest(w, s, l);
      Ledger.PendingAfterRequest(v, z, SwapLabel(bucket, l));
    }
  }

  // The index, the waiting calls and the drawn names.

  lemma StoreTwin(bucket: string, w: World, s: State, v: World, z: State, l: Label)
    requires z.store == SwapStore(bucket, s.store)
    ensures Next(v, z, SwapLabel(bucket, l)).store == SwapStore(bucket, Next(w, s, l).store)
  {
    if l.Deliver? && l.m.topic == TaskEngine {
      StoreAfterSwap(bucket, s.store, l.m.env);
      Ledger.StoreAfterDelivery(w, s, l.m, l.a);
      Ledger.StoreAfterDelivery(v, z, SwapMsg(bucket, l.m), SwapAnswers(bucket, l.a));
    } else if !Ledger.WipesIndex(l) {
      Ledger.StoreUntouched(w, s, l);
      Ledger.StoreUntouched(v, z, SwapLabel(bucket, l));
    }
  }

  lemma CallsTwin(bucket: string, w: World, calls: Calls, l: Label)
    requires OneOf(bucket, w.backend)
    ensures Linearizability.CallsNext(w.(backend := Other(bucket, w.backend)), SwapCalls(bucket, calls),
                                      SwapLabel(bucket, l))
            == SwapCalls(bucket, Linearizability.CallsNext(w, calls, l))
  {
    RequestSwap(bucket, w.backend, l);
  }

  lemma UsedTwin(bucket: string, w: World, s: State, v: World, z: State, l: Label)
    requires z.hist.used == s.hist.used
    ensures Next(v, z, SwapLabel(bucket, l)).hist.used == Next(w, s, l).hist.used
  {
  }

  lemma EnabledSwap(bucket: string, w: World, s: State, v: World, z: State, l: Label)
    requires Twins(bucket, w, s, v, z) && Enabled(w, s, l) && KeepsBlobs(l)
    requires l.Deliver? ==> TwinDownload(bucket, w, s, v, z, l.m)
    ensures Enabled(v, z, SwapLabel(bucket, l))
  {
    match l
    case Ingest(_, _, _, _) =>
    case Search(_, _, _, _) =>
    case Deliver(m, a) => DeliveryEnabled(bucket, w, s, v, z, m, a);
    case Return(_, corr, _) => SwapDecode(bucket, s.calls[corr].inbox.value.data);
    case Timeout(_, _) =>
    case Restart(_, _, _) =>
  }

  lemma DeliveryEnabled(bucket: string, w: World, s: State, v: World, z: State, m: Msg, a: Answers)
    requires Twins(bucket, w, s, v, z) && Enabled(w, s, Deliver(m, a)) && TwinDownload(bucket, w, s, v, z, m)
    ensures Enabled(v, z, Deliver(SwapMsg(bucket, m), SwapAnswers(bucket, a)))
  {
    NamedSwap(bucket, w, s, v, z, m, a);
    assert z.pending[SwapMsg(bucket, m)] == s.pending[m];
    SameFresh(s, z, a.ids);
    if m.topic.TaskEngine? && !a.crashed {
      EngineAnswersSwap(bucket, w, s.store, m.env, a.results);
    }
  }

  lemma SameFresh(s: State, z: State, ids: seq<string>)
    requires z.hist.used == s.hist.used && DistinctFresh(s, ids)
    ensures DistinctFresh(z, ids)
  {
    forall i | 0 <= i < |ids| ensures FreshId(z, ids[i]) {
      assert FreshId(s, ids[i]);
    }
  }

  lemma EngineAnswersSwap(bucket: string, w: World, store: Store, e: Envelope, rs: seq<SearchResult>)
    requires Engine.AnswersEnvelope(w.sqrt, store, e, rs)
    ensures Engine.AnswersEnvelope(w.sqrt, SwapStore(bucket, store), SwapEnv(bucket, e), SwapResults(bucket, rs))
  {
    SwapDecode(bucket, e.data);
    var p := DecodeEmbedCompleted(e.data);
    if Engine.Searches(e) {
      AnswerSwap(bucket, w.sqrt, store, e.tenantId, p.chunks[0].vector, Engine.EffectiveTopK(p.searchTopK), rs);
    }
  }

  lemma TwinStep(bucket: string, w: World, s: State, v: World, z: State, l: Label)
    requires Twins(bucket, w, s, v, z) && Inv(w, s) && Inv(v, z) && Enabled(w, s, l) && KeepsBlobs(l)
    ensures Enabled(v, z, SwapLabel(bucket, l))
    ensures Twins(bucket, w, Next(w, s, l), v, Next(v, z, SwapLabel(bucket, l)))
  {
    if l.Deliver? {
      MessageDownload(bucket, w, s, v, z, l.m);
    }
    EnabledSwap(bucket, w, s, v, z, l);
    EmittedSwap(bucket, w, s, v, z, l);
    StreamTwin(bucket, w, s, v, z, l);
    PendingTwin(bucket, w, s, v, z, l);
    StoreTwin(bucket, w, s, v, z, l);
    BlobsTwin(bucket, w, s, v, z, l);
    CallsTwin(bucket, w, s.calls, l);
    Linearizability.CallsOfNext(w, s, l);
    Linearizability.CallsOfNext(v, z, SwapLabel(bucket, l));
    UsedTwin(bucket, w, s, v, z, l);
  }

  ghost predicate BlobsKept(run: seq<Label>) {
    forall i | 0 <= i < |run| :: KeepsBlobs(run[i])
  }

  lemma {:induction false} RunSwap(bucket: string, w: World, run: seq<Label>)
    requires OneOf(bucket, w.backend) && IsRun(w, run) && BlobsKept(run)
    ensures var v := w.(backend := Other(bucket, w.backend));
            IsRun(v, SwapRun(bucket, run)) && Twins(bucket, w, After(w, run), v, After(v, SwapRun(bucket, run)))
  {
    var v := w.(backend := Other(bucket, w.backend));
    if run == [] {
      TwinInit(bucket, w);
    } else {
      var n := |run| - 1;
      assert forall i | 0 <= i < n :: run[..n][i] == run[i];
      RunSwap(bucket, w, run[..n]);
      assert SwapRun(bucket, run)[..n] == SwapRun(bucket, run[..n]);
      InvReachable(w, run[..n]);
      InvReachable(v, SwapRun(bucket, run[..n]));
      TwinStep(bucket, w, After(w, run[..n]), v, After(v, SwapRun(bucket, run[..n])), run[n]);
    }
  }

  lemma TwinInit(bucket: string, w: World)
    requires OneOf(bucket, w.backend)
    ensures Twins(bucket, w, INIT, w.(backend := Other(bucket, w.backend)), INIT)
  {
  }

  lemma SwapRunInvolutive(bucket: string, run: seq<Label>)
    ensures SwapRun(bucket, SwapRun(bucket, run)) == run
  {
    forall i | 0 <= i < |run| ensures SwapLabel(bucket, SwapLabel(bucket, run[i])) == run[i] {
      match run[i]
      case Deliver(m, a) =>
        SwapMsgInvolutive(bucket, m);
        SwapResultsInvolutive(bucket, a.results);
      case Return(_, _, rs) => SwapResultsInvolutive(bucket, rs);
      case _ =>
    }
  }

  /** A restart that loses blobs is a step over the memory store alone. */
  lemma BlobsLostInMemory(w: World, run: seq<Label>, i: nat)
    requires IsRun(w, run) && i < |run| && !KeepsBlobs(run[i])
    ensures w.backend.Memory?
  {
    RunPrefix(w, run, i);
  }

  lemma BothRuns(bucket: string, w: World, run: seq<Label>)
    requires OneOf(bucket, w.backend) && IsRun(w, run)
    requires IsRun(w.(backend := Other(bucket, w.backend)), SwapRun(bucket, run))
    ensures BlobsKept(run)
  {
    forall i | 0 <= i < |run| ensures KeepsBlobs(run[i]) {
      if !KeepsBlobs(run[i]) {
        BlobsLostInMemory(w, run, i);
        BlobsLostInMemory(w.(backend := Other(bucket, w.backend)), SwapRun(bucket, run), i);
      }
    }
  }

  /** Backend polymorphism: a run over one blob store is, step for step and with URIs exchanged, a run over the other if
      and only if no restart in it loses the memory store's blobs; and then both end in the same stream, queue, index
      and waiting calls under that exchange, which undoes itself. */
  lemma BackendsSimulate(bucket: string, w: World, run: seq<Label>)
    requires OneOf(bucket, w.backend) && IsRun(w, run)
    ensures var v := w.(backend := Other(bucket, w.backend));
            && (IsRun(v, SwapRun(bucket, run)) <==> BlobsKept(run))
            && (BlobsKept(run) ==> Twins(bucket, w, After(w, run), v, After(v, SwapRun(bucket, run))))
            && SwapRun(bucket, SwapRun(bucket, run)) == run
  {
    SwapRunInvolutive(bucket, run);
    if BlobsKept(run) {
      RunSwap(bucket, w, run);
    } else if IsRun(w.(backend := Other(bucket, w.backend)), SwapRun(bucket, run)) {
      BothRuns(bucket, w, run);
    }
  }
}
