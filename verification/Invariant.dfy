/** The provenance invariant is kept by every step, hence by every run. */
module Invariant {
  import opened Events
  import opened Text
  import opened Windows
  import opened Bus
  import opened Blobs
  import opened Environment
  import opened Gateway
  import opened Protocol
  import opened Provenance
  import Chunker

  /** What a step appends to the stream. */
  function Emitted(w: World, s: State, l: Label): seq<Pub> {
    match l
    case Ingest(q, n, upOk, pubOk) => IngestEffect(w.backend, q, n, upOk, pubOk).pubs
    case Search(q, corr, upOk, pubOk) => SearchEffect(w.backend, q, corr, upOk, pubOk).pubs
    case Deliver(m, a) => React(w, s, m, a).emits
    case _ => []
  }

  lemma StreamAfter(w: World, s: State, l: Label)
    ensures Next(w, s, l).stream == s.stream + Emitted(w, s, l)
  {
  }

  /** What the gateway uploads under a step, and for whom. */
  function UploadsOf(w: World, l: Label): (string, seq<Upload>) {
    match l
    case Ingest(q, n, upOk, pubOk) => (q.tenant, IngestEffect(w.backend, q, n, upOk, pubOk).uploads)
    case Search(q, corr, upOk, pubOk) => (q.tenant, SearchEffect(w.backend, q, corr, upOk, pubOk).uploads)
    case _ => ("", [])
  }

  lemma RequestEmits(w: World, s: State, l: Label, p: Pub)
    requires Enabled(w, s, l) && (l.Ingest? || l.Search?) && p in Emitted(w, s, l)
    ensures p.topic == Ingress && IsRoot(p.env) && p.env.tenantId == UploadsOf(w, l).0
    ensures p.env.data.blobURI == LatestUri(w.backend, UploadsOf(w, l).0, UploadsOf(w, l).1)
    ensures Emitted(w, s, l) == [p]
    ensures l.Ingest? ==> p.env.typ == IngestRequested && p.env.data.documentId == l.n.docId
    ensures l.Search? ==> p.env.typ == SearchRequested && p.env.correlationId == l.corr
  {
    assert Utf8Size("") == 0;
  }

  /** A message on the queue stands at some place in the pipeline. */
  lemma PlaceOf(w: World, s: State, m: Msg) returns (x: Src)
    requires Inv(w, s) && m in s.pending && !m.topic.Reply?
    ensures ValidSrc(w, s, x) && m.env == EnvOf(w, x) && TopicOk(m.topic, x)
  {
    var p := Pub(m.topic, m.env);
    assert PubOk(w, s, p);
    x :| ValidSrc(w, s, x) && p.env == EnvOf(w, x) && TopicOk(p.topic, x);
  }

  /** A download finds only what was uploaded under that very URI. */
  lemma DownloadIsVersion(w: World, s: State, r: Root)
    requires Inv(w, s) && Pub(Ingress, r) in s.stream
    ensures var c := Download(w.backend, s.blobs, r.data.blobURI);
            c.Some? ==> (r.data.blobURI, c.value) in s.hist.versions
  {
    var uri := r.data.blobURI;
    var c := Download(w.backend, s.blobs, uri);
    if c.Some? {
      var k := KeyOf(w.backend, uri).value;
      assert RootUriOk(w, s, Pub(Ingress, r).env);
      if uri != "" {
        var f :| uri == Uri(w.backend, r.tenantId, f);
        KeyOfUri(w.backend, r.tenantId, f);
        assert UriOfKey(w.backend, k) == uri;
      }
    }
  }

  lemma EmbedEmits(w: World, s: State, s': State, m: Msg, a: Answers, x: Src, p: Pub)
    requires Grows(s, s') && ValidSrc(w, s, x) && m.env == EnvOf(w, x) && m.topic == TaskEmbed == Target(x)
    requires p in React(w, s, m, a).emits
    ensures PubOk(w, s', p)
  {
    EmbedAt(w, s, x, a);
    SrcKept(w, s, s', Embedded(x));
  }

  lemma VisionPub(w: World, s: State, m: Msg, a: Answers, x: Src, p: Pub)
    requires m.env == EnvOf(w, x) && m.topic == TaskVision == Target(x) && p in React(w, s, m, a).emits
    ensures var image := Download(w.backend, s.blobs, x.root.data.blobURI);
            image.Some? && p == Pub(Ingress, EnvOf(w, Src(AtTask, x.root, image.value, 0, DocOf(x.root) + "-vision")))
  {
    VisionAt(w, s, x, a);
  }

  lemma VisionEmits(w: World, s: State, s': State, m: Msg, a: Answers, x: Src, p: Pub)
    requires Inv(w, s) && Grows(s, s') && ValidSrc(w, s, x) && m.env == EnvOf(w, x)
    requires m.topic == TaskVision == Target(x) && p in React(w, s, m, a).emits
    ensures PubOk(w, s', p)
  {
    VisionPub(w, s, m, a, x, p);
    DownloadIsVersion(w, s, x.root);
    var image := Download(w.backend, s.blobs, x.root.data.blobURI);
    DescribedSrcValid(w, s, x.root, image.value);
    SrcKept(w, s, s', Src(AtTask, x.root, image.value, 0, DocOf(x.root) + "-vision"));
  }

  lemma DescribedSrcValid(w: World, s: State, r: Root, blob: string)
    requires Pub(Ingress, r) in s.stream && Route(r) == TaskVision && (r.data.blobURI, blob) in s.hist.versions
    ensures ValidSrc(w, s, Src(AtTask, r, blob, 0, DocOf(r) + "-vision"))
  {
  }

  lemma ChunkPub(w: World, s: State, m: Msg, a: Answers, x: Src, p: Pub) returns (j: nat)
    requires m.env == EnvOf(w, x) && m.topic == TaskChunk == Target(x)
    requires p in React(w, s, m, a).emits
    ensures var content := Download(w.backend, s.blobs, x.root.data.blobURI);
            && IsIngest(x.root) && content.Some? && j < |Published(content.value)|
            && p == Pub(Ingress, EnvOf(w, ChunkSrc(x.root, content.value, j, a.Id(j))))
            && Name(a.Id(j), DocOf(x.root), j, Published(content.value)[j]) in NewNames(w, s, m, a)
  {
    var all := Published(Download(w.backend, s.blobs, x.root.data.blobURI).value);
    var texts := all[..a.Reached(|all|)];
    Chunker.EmitsMembers(m.env, texts, a, p);
    j :| Chunker.SentAs(m.env, texts, a, p, j);
    ChunkAt(w, x.root, Download(w.backend, s.blobs, x.root.data.blobURI).value, j, a);
    assert Named(w, s, m, a) == texts;
  }

  lemma NamedSrcValid(w: World, s: State, y: Src)
    requires Pub(Ingress, y.root) in s.stream && Route(y.root) == TaskChunk && IsIngest(y.root)
    requires y == ChunkSrc(y.root, y.blob, y.i, y.id) && y.i < |Published(y.blob)|
    requires Name(y.id, DocOf(y.root), y.i, Published(y.blob)[y.i]) in s.hist.names
    requires (y.root.data.blobURI, y.blob) in s.hist.versions
    ensures ValidSrc(w, s, y)
  {
  }

  lemma ChunkEmits(w: World, s: State, s': State, m: Msg, a: Answers, x: Src, p: Pub)
    requires Inv(w, s) && Grows(s, s') && ValidSrc(w, s, x) && m.env == EnvOf(w, x)
    requires m.topic == TaskChunk == Target(x) && p in React(w, s, m, a).emits
    requires NewNames(w, s, m, a) <= s'.hist.names
    ensures PubOk(w, s', p)
  {
    var j := ChunkPub(w, s, m, a, x, p);
    DownloadIsVersion(w, s, x.root);
    NamedSrcValid(w, s', ChunkSrc(x.root, Download(w.backend, s.blobs, x.root.data.blobURI).value, j, a.Id(j)));
  }

  lemma EngineEmits(w: World, s: State, s': State, m: Msg, a: Answers, x: Src, p: Pub)
    requires Grows(s, s') && ValidSrc(w, s, x) && m.env == EnvOf(w, x) && m.topic == TaskEngine == Target(x)
    requires p in React(w, s, m, a).emits
    ensures PubOk(w, s', p)
  {
    EngineAt(w, s, x, a);
    SrcKept(w, s, s', x);
    assert ReplyOk(w, s', p, x);
  }

  lemma RouterEmits(w: World, s: State, s': State, m: Msg, a: Answers, x: Src, p: Pub)
    requires Grows(s, s') && ValidSrc(w, s, x) && m.env == EnvOf(w, x) && m.topic == Ingress
    requires p in React(w, s, m, a).emits
    ensures PubOk(w, s', p)
  {
    ClassifyAt(w, x);
    SrcKept(w, s, s', x);
  }

  lemma NamesAfter(w: World, s: State, m: Msg, a: Answers)
    ensures NewNames(w, s, m, a) <= Next(w, s, Deliver(m, a)).hist.names
  {
  }

  lemma DeliverEmits(w: World, s: State, s': State, m: Msg, a: Answers, p: Pub)
    requires Inv(w, s) && m in s.pending && Grows(s, s')
    requires p in React(w, s, m, a).emits && NewNames(w, s, m, a) <= s'.hist.names
    ensures PubOk(w, s', p)
  {
    RepliesEmitNothing(w, s, m, a);
    var x := PlaceOf(w, s, m);
    EmitsAt(w, s, s', m, a, x, p);
  }

  lemma RepliesEmitNothing(w: World, s: State, m: Msg, a: Answers)
    ensures m.topic.Reply? ==> React(w, s, m, a).emits == []
  {
  }

  lemma EmitsAt(w: World, s: State, s': State, m: Msg, a: Answers, x: Src, p: Pub)
    requires Inv(w, s) && Grows(s, s') && ValidSrc(w, s, x) && m.env == EnvOf(w, x) && TopicOk(m.topic, x)
    requires p in React(w, s, m, a).emits && NewNames(w, s, m, a) <= s'.hist.names
    ensures PubOk(w, s', p)
  {
    match m.topic
    case Ingress => RouterEmits(w, s, s', m, a, x, p);
    case TaskEmbed => EmbedEmits(w, s, s', m, a, x, p);
    case TaskVision => VisionEmits(w, s, s', m, a, x, p);
    case TaskChunk => ChunkEmits(w, s, s', m, a, x, p);
    case TaskEngine => EngineEmits(w, s, s', m, a, x, p);
  }

  lemma RequestOk(w: World, s: State, l: Label, p: Pub)
    requires Enabled(w, s, l) && !l.Deliver? && p in Emitted(w, s, l)
    ensures PubOk(w, Next(w, s, l), p)
  {
    StreamAfter(w, s, l);
    RequestEmits(w, s, l, p);
    assert ValidSrc(w, Next(w, s, l), Src(AtRoot, p.env, "", 0, ""));
  }

  lemma EmittedOk(w: World, s: State, l: Label, p: Pub)
    requires Inv(w, s) && Enabled(w, s, l) && p in Emitted(w, s, l)
    ensures PubOk(w, Next(w, s, l), p)
  {
    if l.Deliver? {
      NextGrows(w, s, l);
      NamesAfter(w, s, l.m, l.a);
      DeliverEmits(w, s, Next(w, s, l), l.m, l.a, p);
    } else {
      RequestOk(w, s, l, p);
    }
  }

  lemma StreamOkNext(w: World, s: State, l: Label)
    requires Inv(w, s) && Enabled(w, s, l)
    ensures StreamOk(w, Next(w, s, l))
  {
    NextGrows(w, s, l);
    StreamAfter(w, s, l);
    forall p | p in Next(w, s, l).stream ensures PubOk(w, Next(w, s, l), p) {
      if p in s.stream {
        PubKept(w, s, Next(w, s, l), p);
      } else {
        EmittedOk(w, s, l, p);
      }
    }
  }

  lemma PendingOkNext(w: World, s: State, l: Label)
    requires PendingOk(s) && Enabled(w, s, l)
    ensures PendingOk(Next(w, s, l))
  {
    var s' := Next(w, s, l);
    var emitted := Emitted(w, s, l);
    StreamAfter(w, s, l);
    forall m | m in s'.pending
      ensures Pub(m.topic, m.env) in s'.stream && 1 <= m.left <= MAX_DELIVER && m.topic != Dlq
    {
      ArrivalsMember(emitted, m);
      assert l.Deliver? ==> m in s.pending + Arrivals(emitted)
                            || m in Redelivery(l.m, Settled(React(w, s, l.m, l.a), l.a));
    }
  }

  lemma NewVersionsSplit(b: Backend, tenant: string, us: seq<Upload>)
    requires us != []
    ensures var n := |us| - 1;
            NewVersions(b, tenant, us) ==
            NewVersions(b, tenant, us[..n]) + {(Uri(b, tenant, us[n].filename), us[n].content)}
  {
    var n := |us| - 1;
    forall v | v in NewVersions(b, tenant, us)
      ensures v in NewVersions(b, tenant, us[..n]) || v == (Uri(b, tenant, us[n].filename), us[n].content)
    {
      var i :| 0 <= i < |us| && v == (Uri(b, tenant, us[i].filename), us[i].content);
      assert i < n ==> us[..n][i] == us[i];
    }
    forall v | v in NewVersions(b, tenant, us[..n]) ensures v in NewVersions(b, tenant, us) {
      var i :| 0 <= i < n && v == (Uri(b, tenant, us[..n][i].filename), us[..n][i].content);
      assert us[..n][i] == us[i];
    }
  }

  lemma UploadKnown(b: Backend, objects: Objects, tenant: string, u: Upload, k: string, known: set<(string, string)>)
    requires k in objects ==> (UriOfKey(b, k), objects[k]) in known
    requires k in Uploaded(b, objects, tenant, u.filename, u.content)
    ensures (UriOfKey(b, k), Uploaded(b, objects, tenant, u.filename, u.content)[k]) in
            known + {(Uri(b, tenant, u.filename), u.content)}
  {
  }

  lemma {:induction false} UploadsKnown(w: World, s: State, tenant: string, us: seq<Upload>, k: string)
    requires BlobsOk(w, s) && k in AllUploaded(w.backend, s.blobs, tenant, us)
    ensures (UriOfKey(w.backend, k), AllUploaded(w.backend, s.blobs, tenant, us)[k]) in
            s.hist.versions + NewVersions(w.backend, tenant, us)
  {
    if us != [] {
      var n := |us| - 1;
      var before := AllUploaded(w.backend, s.blobs, tenant, us[..n]);
      if k in before {
        UploadsKnown(w, s, tenant, us[..n], k);
      }
      NewVersionsSplit(w.backend, tenant, us);
      UploadKnown(w.backend, before, tenant, us[n], k, s.hist.versions + NewVersions(w.backend, tenant, us[..n]));
    }
  }

  lemma VersionsAfter(w: World, s: State, l: Label)
    ensures var (t, us) := UploadsOf(w, l);
            && Next(w, s, l).hist.versions == s.hist.versions + NewVersions(w.backend, t, us)
            && Next(w, s, l).blobs ==
               if l.Restart? && l.objects then map[] else AllUploaded(w.backend, s.blobs, t, us)
  {
    if !l.Ingest? && !l.Search? {
      assert NewVersions(w.backend, "", []) == {};
      assert s.hist.versions + {} == s.hist.versions;
      VersionsUntouched(w, s, l);
    }
  }

  lemma VersionsUntouched(w: World, s: State, l: Label)
    requires !l.Ingest? && !l.Search?
    ensures Next(w, s, l).hist.versions == s.hist.versions
    ensures Next(w, s, l).blobs == if l.Restart? && l.objects then map[] else s.blobs
  {
    if l.Deliver? {
      VersionsOfDelivery(w, s, l.m, l.a);
    }
  }

  lemma VersionsOfDelivery(w: World, s: State, m: Msg, a: Answers)
    ensures Next(w, s, Deliver(m, a)).hist.versions == s.hist.versions
    ensures Next(w, s, Deliver(m, a)).blobs == s.blobs
  {
  }

  lemma BlobsOkNext(w: World, s: State, l: Label)
    requires Inv(w, s) && Enabled(w, s, l)
    ensures BlobsOk(w, Next(w, s, l))
  {
    var s' := Next(w, s, l);
    var (t, us) := UploadsOf(w, l);
    VersionsAfter(w, s, l);
    StreamOkNext(w, s, l);
    StreamAfter(w, s, l);
    forall k | k in s'.blobs ensures (UriOfKey(w.backend, k), s'.blobs[k]) in s'.hist.versions {
      UploadsKnown(w, s, t, us, k);
    }
    forall v | v in s'.hist.versions ensures exists t' :: UriOk(w, t', v.0) {
      if v !in s.hist.versions {
        assert UriOk(w, t, v.0);
      }
    }
    forall p | p in s'.stream ensures RootUriOk(w, s', p.env) {
      if p in s.stream {
        assert RootUriOk(w, s, p.env);
      } else if IsRoot(p.env) {
        NewRootUri(w, s, l, p);
      }
    }
  }

  lemma NewRootUri(w: World, s: State, l: Label, p: Pub)
    requires Inv(w, s) && Enabled(w, s, l) && p in Emitted(w, s, l) && IsRoot(p.env)
    ensures RootUriOk(w, Next(w, s, l), p.env)
  {
    var s' := Next(w, s, l);
    var (t, us) := UploadsOf(w, l);
    VersionsAfter(w, s, l);
    if l.Deliver? {
      DeliverEmitsRoot(w, s, l.m, l.a, p);
      assert RootUriOk(w, s, Pub(l.m.topic, l.m.env).env);
    } else {
      RequestEmits(w, s, l, p);
      if us != [] {
        var n := |us| - 1;
        assert UriOk(w, t, Uri(w.backend, t, us[n].filename));
        assert (p.env.data.blobURI, us[n].content) in NewVersions(w.backend, t, us);
      }
    }
  }

  /** Only the router passes a request on; every other handler emits something derived. */
  lemma DeliverEmitsRoot(w: World, s: State, m: Msg, a: Answers, p: Pub)
    requires Inv(w, s) && m in s.pending && p in React(w, s, m, a).emits && IsRoot(p.env)
    ensures p.env == m.env && m.topic == Ingress
  {
    RepliesEmitNothing(w, s, m, a);
    var x := PlaceOf(w, s, m);
    EmitsRootAt(w, s, m, a, x, p);
  }

  lemma EmitsRootAt(w: World, s: State, m: Msg, a: Answers, x: Src, p: Pub)
    requires ValidSrc(w, s, x) && m.env == EnvOf(w, x) && TopicOk(m.topic, x)
    requires p in React(w, s, m, a).emits && IsRoot(p.env)
    ensures p.env == m.env && m.topic == Ingress
  {
    match m.topic
    case Ingress => ClassifyAt(w, x);
    case TaskEmbed => EmbedAt(w, s, x, a);
    case TaskVision => VisionAt(w, s, x, a);
    case TaskChunk => ChunkEmitsNoRoot(w, s, m, a, x, p);
    case TaskEngine => EngineAt(w, s, x, a);
  }

  lemma ChunkEmitsNoRoot(w: World, s: State, m: Msg, a: Answers, x: Src, p: Pub)
    requires m.env == EnvOf(w, x) && m.topic == TaskChunk == Target(x) && p in React(w, s, m, a).emits
    ensures !IsRoot(p.env)
  {
    var j := ChunkPub(w, s, m, a, x, p);
  }

  lemma InvNext(w: World, s: State, l: Label)
    requires Inv(w, s) && Enabled(w, s, l)
    ensures Inv(w, Next(w, s, l))
  {
    StreamOkNext(w, s, l);
    PendingOkNext(w, s, l);
    BlobsOkNext(w, s, l);
  }

  /** Every reachable state meets the invariant. */
  lemma {:induction false} InvReachable(w: World, run: seq<Label>)
    requires IsRun(w, run)
    ensures Inv(w, After(w, run))
  {
    if run != [] {
      var n := |run| - 1;
      InvReachable(w, run[..n]);
      InvNext(w, After(w, run[..n]), run[n]);
    }
  }
}
