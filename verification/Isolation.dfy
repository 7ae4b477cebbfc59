/** Tenant non-interference: erasing every step another tenant caused leaves a run, and nothing the kept tenant can
    observe changes. */
module Isolation {
  import opened Wrappers
  import opened Events
  import opened Bus
  import opened Blobs
  import opened Environment
  import opened VectorDB
  import opened Gateway
  import opened Protocol
  import opened Provenance
  import opened Invariant
  import opened Identity
  import opened Ledger
  import opened Linearizability
  import Chunker
  import Engine

  function TenantOf(l: Label): string {
    match l
    case Ingest(q, _, _, _) => q.tenant
    case Search(q, _, _, _) => q.tenant
    case Deliver(m, _) => m.env.tenantId
    case Return(tenant, _, _) => tenant
    case Timeout(tenant, _) => tenant
    case Restart(_, _, _) => ""
  }

  /** The step is tenant t's, or a restart, which is everyone's. */
  predicate Seen(l: Label, t: string) {
    l.Restart? || TenantOf(l) == t
  }

  /** The steps one tenant causes and the restarts, in order. */
  function Kept(run: seq<Label>, t: string): seq<Label> {
    if run == [] then []
    else
      var l := run[|run| - 1];
      Kept(run[..|run| - 1], t) + if Seen(l, t) then [l] else []
  }

  function PubsOf(stream: seq<Pub>, t: string): seq<Pub> {
    if stream == [] then []
    else
      var p := stream[|stream| - 1];
      PubsOf(stream[..|stream| - 1], t) + if p.env.tenantId == t then [p] else []
  }

  lemma {:induction false} PubsOfAppend(a: seq<Pub>, b: seq<Pub>, t: string)
    ensures PubsOf(a + b, t) == PubsOf(a, t) + PubsOf(b, t)
  {
    if b == [] {
      assert a + b == a;
    } else {
      var n := |b| - 1;
      PubsOfAppend(a, b[..n], t);
      assert (a + b)[..|a + b| - 1] == a + b[..n];
    }
  }

  lemma {:induction false} PubsOfOne(pubs: seq<Pub>, t: string, u: string)
    requires forall p | p in pubs :: p.env.tenantId == u
    ensures PubsOf(pubs, t) == if u == t then pubs else []
  {
    if pubs != [] {
      var n := |pubs| - 1;
      assert pubs[n] in pubs && forall p | p in pubs[..n] :: p in pubs;
      PubsOfOne(pubs[..n], t, u);
      assert pubs == pubs[..n] + [pubs[n]];
    }
  }

  ghost predicate SamePending(s: State, k: State, t: string) {
    forall m: Msg :: k.pending[m] == if m.env.tenantId == t then s.pending[m] else 0
  }

  ghost predicate SameBlobs(w: World, s: State, k: State, t: string) {
    forall f :: Download(w.backend, k.blobs, Uri(w.backend, t, f)) == Download(w.backend, s.blobs, Uri(w.backend, t, f))
  }

  ghost predicate SameCalls(s: State, k: State, t: string) {
    SameCallMaps(s.calls, k.calls, t)
  }

  /** k is what tenant t sees of s. */
  ghost predicate View(w: World, s: State, k: State, t: string) {
    && k.stream == PubsOf(s.stream, t) && SamePending(s, k, t)
    && Slice(k.store, t) == Slice(s.store, t) && SameBlobs(w, s, k, t) && SameCalls(s, k, t)
    && k.hist.used <= s.hist.used
  }

  lemma TenantNonEmpty(w: World, s: State, m: Msg)
    requires Inv(w, s) && m in s.pending
    ensures m.env.tenantId != ""
  {
    if m.topic.Reply? {
      var p := Pub(m.topic, m.env);
      assert PubOk(w, s, p);
      var x :| ReplyOk(w, s, p, x);
    } else {
      var x := PlaceOf(w, s, m);
      PlaceTenant(w, x);
    }
  }

  lemma PlaceTenant(w: World, x: Src)
    ensures EnvOf(w, x).tenantId == x.root.tenantId != ""
  {
  }

  lemma EmitsTenant(w: World, s: State, m: Msg, a: Answers, p: Pub)
    requires m.env.tenantId != "" && p in React(w, s, m, a).emits
    ensures p.env.tenantId == m.env.tenantId
  {
    if m.topic == TaskChunk {
      var all := Chunker.Texts(w.backend, s.blobs, m.env);
      Chunker.EmitsMembers(m.env, all[..a.Reached(|all|)], a, p);
    }
  }

  lemma EmittedTenant(w: World, s: State, l: Label, p: Pub)
    requires Inv(w, s) && Enabled(w, s, l) && p in Emitted(w, s, l)
    ensures p.env.tenantId == TenantOf(l)
  {
    if l.Deliver? {
      TenantNonEmpty(w, s, l.m);
      EmitsTenant(w, s, l.m, l.a, p);
    } else {
      RequestEmits(w, s, l, p);
    }
  }

  // The handlers cannot tell s from k.

  lemma SameDownload(w: World, s: State, k: State, t: string, r: Root)
    requires Inv(w, s) && Inv(w, k) && SameBlobs(w, s, k, t) && r.tenantId == t && Pub(Ingress, r) in s.stream
    ensures Download(w.backend, k.blobs, r.data.blobURI) == Download(w.backend, s.blobs, r.data.blobURI)
  {
    assert RootUriOk(w, s, Pub(Ingress, r).env);
    if r.data.blobURI == "" {
      EmptyUri(w, s);
      EmptyUri(w, k);
    } else {
      var f :| r.data.blobURI == Uri(w.backend, r.tenantId, f);
    }
  }

  lemma SameIfSameBlob(w: World, s: State, k: State, m: Msg, a: Answers)
    requires m.topic == TaskVision || m.topic == TaskChunk ==>
               Download(w.backend, k.blobs, BlobURI(m.env.data)) == Download(w.backend, s.blobs, BlobURI(m.env.data))
    ensures React(w, k, m, a) == React(w, s, m, a) && Named(w, k, m, a) == Named(w, s, m, a)
  {
  }

  lemma SameReaction(w: World, s: State, k: State, t: string, m: Msg, a: Answers)
    requires Inv(w, s) && Inv(w, k) && SameBlobs(w, s, k, t) && m in s.pending && m.env.tenantId == t
    ensures React(w, k, m, a) == React(w, s, m, a) && Named(w, k, m, a) == Named(w, s, m, a)
  {
    if m.topic == TaskVision || m.topic == TaskChunk {
      var x := PlaceOf(w, s, m);
      AtRootTopic(w, x, m);
      SameDownload(w, s, k, t, x.root);
    }
    SameIfSameBlob(w, s, k, m, a);
  }

  lemma AtRootTopic(w: World, x: Src, m: Msg)
    requires m.env == EnvOf(w, x) && TopicOk(m.topic, x) && m.topic in {TaskVision, TaskChunk}
    ensures m.env == x.root && BlobURI(m.env.data) == x.root.data.blobURI
  {
  }

  lemma SameStoreAfter(s: State, k: State, t: string, env: Envelope)
    requires Slice(k.store, t) == Slice(s.store, t)
    ensures Slice(Engine.StoreAfter(k.store, env), t) == Slice(Engine.StoreAfter(s.store, env), t)
    ensures env.tenantId != t ==> Slice(Engine.StoreAfter(s.store, env), t) == Slice(s.store, t)
  {
    var p := DecodeEmbedCompleted(env.data);
    var chunks := p.chunks[..Engine.Accepted(env.tenantId, p.chunks)];
    Engine.UpsertAllIsOverlay(k.store, env.tenantId, p.documentId, chunks);
    Engine.UpsertAllIsOverlay(s.store, env.tenantId, p.documentId, chunks);
  }

  /** A reply reaches only a call of its own tenant. */
  lemma ReplyTenant(w: World, s: State, m: Msg)
    requires Inv(w, s) && SearchesOk(s) && CallsOk(s) && m in s.pending && m.topic.Reply?
    requires m.env.correlationId in s.calls
    ensures s.calls[m.env.correlationId].tenant == m.env.tenantId
  {
    var p, corr := Pub(m.topic, m.env), m.env.correlationId;
    assert PubOk(w, s, p) && CallOk(s, corr, s.calls[corr]);
    var x :| ReplyOk(w, s, p, x);
    var r :| IsSearchRoot(r) && Pub(Ingress, r) in s.stream && r.correlationId == corr
             && r.tenantId == s.calls[corr].tenant;
    var q, q' := Pub(Ingress, r), Pub(Ingress, x.root);
    assert IsSearchRoot(q.env) && IsSearchRoot(q'.env);
  }

  // Uploads.

  lemma {:induction false} UploadsSeen(w: World, s: State, k: State, t: string, us: seq<Upload>, f: string)
    requires SameBlobs(w, s, k, t)
    ensures Download(w.backend, AllUploaded(w.backend, k.blobs, t, us), Uri(w.backend, t, f)) ==
            Download(w.backend, AllUploaded(w.backend, s.blobs, t, us), Uri(w.backend, t, f))
  {
    if us != [] {
      var n := |us| - 1;
      UploadsSeen(w, s, k, t, us[..n], f);
      var before, before' := AllUploaded(w.backend, s.blobs, t, us[..n]), AllUploaded(w.backend, k.blobs, t, us[..n]);
      DownloadAfterUpload(w.backend, before, t, us[n].filename, us[n].content, t, f);
      DownloadAfterUpload(w.backend, before', t, us[n].filename, us[n].content, t, f);
    }
  }

  lemma {:induction false} UploadsUnseen(w: World, objects: Objects, t: string, u: string, us: seq<Upload>, f: string)
    requires t != u && Apart(t, u)
    ensures Download(w.backend, AllUploaded(w.backend, objects, u, us), Uri(w.backend, t, f)) ==
            Download(w.backend, objects, Uri(w.backend, t, f))
  {
    if us != [] {
      var n := |us| - 1;
      UploadsUnseen(w, objects, t, u, us[..n], f);
      var before := AllUploaded(w.backend, objects, u, us[..n]);
      DownloadAfterUpload(w.backend, before, u, us[n].filename, us[n].content, t, f);
      if Uri(w.backend, t, f) == Uri(w.backend, u, us[n].filename) {
        UriDeterminesTenant(w.backend, t, f, u, us[n].filename);
      }
    }
  }

  /** A request comes from the tenant itself or from one that shares no URI with it. */
  predicate ApartFrom(t: string, l: Label) {
    l.Ingest? || l.Search? ==> TenantOf(l) == t || Apart(t, TenantOf(l))
  }

  lemma BlobsSeen(w: World, s: State, k: State, t: string, l: Label)
    requires SameBlobs(w, s, k, t) && Seen(l, t)
    ensures SameBlobs(w, Next(w, s, l), Next(w, k, l), t)
  {
    var (u, us) := UploadsOf(w, l);
    VersionsAfter(w, s, l);
    VersionsAfter(w, k, l);
    forall f ensures Download(w.backend, Next(w, k, l).blobs, Uri(w.backend, t, f)) ==
                     Download(w.backend, Next(w, s, l).blobs, Uri(w.backend, t, f))
    {
      if l.Ingest? || l.Search? {
        UploadsSeen(w, s, k, t, us, f);
      } else {
        VersionsUntouched(w, s, l);
        VersionsUntouched(w, k, l);
      }
    }
  }

  lemma BlobsUnseen(w: World, s: State, k: State, t: string, l: Label)
    requires SameBlobs(w, s, k, t) && !Seen(l, t) && ApartFrom(t, l)
    ensures SameBlobs(w, Next(w, s, l), k, t)
  {
    var (u, us) := UploadsOf(w, l);
    VersionsAfter(w, s, l);
    forall f ensures Download(w.backend, k.blobs, Uri(w.backend, t, f)) ==
                     Download(w.backend, Next(w, s, l).blobs, Uri(w.backend, t, f))
    {
      if l.Ingest? || l.Search? {
        UploadsUnseen(w, s.blobs, t, u, us, f);
      } else {
        VersionsUntouched(w, s, l);
      }
    }
  }

  // The queue.

  lemma ArrivalsOfTenant(pubs: seq<Pub>, u: string, m: Msg)
    requires forall p | p in pubs :: p.env.tenantId == u
    ensures m.env.tenantId != u ==> Arrivals(pubs)[m] == 0
  {
    ArrivalsMember(pubs, m);
  }

  lemma RedeliveryOfTenant(m: Msg, settled: Option<Settlement>, n: Msg)
    ensures n.env.tenantId != m.env.tenantId ==> Redelivery(m, settled)[n] == 0
  {
  }

  function PendingAfter(s: State, r: Reaction, m: Msg, a: Answers): multiset<Msg> {
    s.pending + Arrivals(r.emits) - multiset{m} + Redelivery(m, Settled(r, a))
  }

  lemma PendingSeen(w: World, s: State, k: State, t: string, l: Label)
    requires Inv(w, s) && Inv(w, k) && View(w, s, k, t) && Enabled(w, s, l) && Seen(l, t)
    ensures SamePending(Next(w, s, l), Next(w, k, l), t)
  {
    if l.Deliver? {
      SameReaction(w, s, k, t, l.m, l.a);
      TenantNonEmpty(w, s, l.m);
      var r := React(w, s, l.m, l.a);
      forall p | p in r.emits ensures p.env.tenantId == t { EmitsTenant(w, s, l.m, l.a, p); }
      DeliveryPendingSeen(s, k, t, r, l.m, l.a);
      PendingIs(w, s, l.m, l.a);
      PendingIs(w, k, l.m, l.a);
    } else {
      RequestPendingSeen(w, s, k, t, l);
    }
  }

  lemma PendingIs(w: World, s: State, m: Msg, a: Answers)
    ensures Next(w, s, Deliver(m, a)).pending == PendingAfter(s, React(w, s, m, a), m, a)
  {
  }

  lemma DeliveryPendingSeen(s: State, k: State, t: string, r: Reaction, m: Msg, a: Answers)
    requires SamePending(s, k, t) && m.env.tenantId == t && forall p | p in r.emits :: p.env.tenantId == t
    ensures forall n: Msg :: PendingAfter(k, r, m, a)[n] ==
                             if n.env.tenantId == t then PendingAfter(s, r, m, a)[n] else 0
  {
    forall n: Msg ensures PendingAfter(k, r, m, a)[n] ==
                          if n.env.tenantId == t then PendingAfter(s, r, m, a)[n] else 0
    {
      ArrivalsOfTenant(r.emits, t, n);
      RedeliveryOfTenant(m, Settled(r, a), n);
      assert k.pending[n] == if n.env.tenantId == t then s.pending[n] else 0;
    }
  }

  lemma ArrivalsSeen(s: multiset<Msg>, k: multiset<Msg>, t: string, pubs: seq<Pub>)
    requires forall m: Msg :: k[m] == if m.env.tenantId == t then s[m] else 0
    requires forall p | p in pubs :: p.env.tenantId == t
    ensures forall m: Msg :: (k + Arrivals(pubs))[m] == if m.env.tenantId == t then (s + Arrivals(pubs))[m] else 0
  {
    forall m: Msg ensures (k + Arrivals(pubs))[m] == if m.env.tenantId == t then (s + Arrivals(pubs))[m] else 0 {
      ArrivalsOfTenant(pubs, t, m);
    }
  }

  lemma RequestPendingSeen(w: World, s: State, k: State, t: string, l: Label)
    requires SamePending(s, k, t) && Seen(l, t) && !l.Deliver? && Inv(w, s) && Enabled(w, s, l)
    ensures SamePending(Next(w, s, l), Next(w, k, l), t)
  {
    var pubs := Emitted(w, s, l);
    forall p | p in pubs ensures p.env.tenantId == t { EmittedTenant(w, s, l, p); }
    ArrivalsSeen(s.pending, k.pending, t, pubs);
    PendingAfterRequest(w, s, l);
    PendingAfterRequest(w, k, l);
  }

  lemma DeliveryPendingUnseen(s: State, k: State, t: string, r: Reaction, m: Msg, a: Answers)
    requires SamePending(s, k, t) && m.env.tenantId != t && forall p | p in r.emits :: p.env.tenantId != t
    ensures forall n: Msg :: k.pending[n] == if n.env.tenantId == t then PendingAfter(s, r, m, a)[n] else 0
  {
    forall n: Msg ensures k.pending[n] == if n.env.tenantId == t then PendingAfter(s, r, m, a)[n] else 0 {
      ArrivalsMember(r.emits, n);
      RedeliveryOfTenant(m, Settled(r, a), n);
      assert k.pending[n] == if n.env.tenantId == t then s.pending[n] else 0;
    }
  }

  lemma RequestPendingUnseen(s: multiset<Msg>, k: multiset<Msg>, t: string, pubs: seq<Pub>)
    requires forall m: Msg :: k[m] == if m.env.tenantId == t then s[m] else 0
    requires forall p | p in pubs :: p.env.tenantId != t
    ensures forall m: Msg :: k[m] == if m.env.tenantId == t then (s + Arrivals(pubs))[m] else 0
  {
    forall m: Msg ensures k[m] == if m.env.tenantId == t then (s + Arrivals(pubs))[m] else 0 {
      ArrivalsMember(pubs, m);
    }
  }

  lemma PendingUnseen(w: World, s: State, k: State, t: string, l: Label)
    requires Inv(w, s) && SamePending(s, k, t) && Enabled(w, s, l) && !Seen(l, t)
    ensures SamePending(Next(w, s, l), k, t)
  {
    if l.Deliver? {
      TenantNonEmpty(w, s, l.m);
      var r := React(w, s, l.m, l.a);
      forall p | p in r.emits ensures p.env.tenantId != t { EmitsTenant(w, s, l.m, l.a, p); }
      DeliveryPendingUnseen(s, k, t, r, l.m, l.a);
      PendingIs(w, s, l.m, l.a);
    } else {
      var pubs := Emitted(w, s, l);
      forall p | p in pubs ensures p.env.tenantId != t { EmittedTenant(w, s, l, p); }
      RequestPendingUnseen(s.pending, k.pending, t, pubs);
      PendingAfterRequest(w, s, l);
    }
  }

  // One step, seen or unseen.

  lemma EnabledSeen(w: World, s: State, k: State, t: string, l: Label)
    requires Inv(w, s) && Inv(w, k) && SearchesOk(s) && CallsOk(s) && View(w, s, k, t)
    requires Enabled(w, s, l) && Seen(l, t)
    ensures Enabled(w, k, l)
  {
    if l.Deliver? {
      SameReaction(w, s, k, t, l.m, l.a);
      assert k.pending[l.m] == s.pending[l.m];
      if l.m.topic.Reply? && l.m.env.correlationId in s.calls {
        ReplyTenant(w, s, l.m);
      }
      DeliverEnabledSeen(w, s, k, t, l.m, l.a);
    }
  }

  lemma DeliverEnabledSeen(w: World, s: State, k: State, t: string, m: Msg, a: Answers)
    requires Enabled(w, s, Deliver(m, a)) && m in k.pending && m.env.tenantId == t
    requires Named(w, k, m, a) == Named(w, s, m, a) && k.hist.used <= s.hist.used
    requires Slice(k.store, t) == Slice(s.store, t) && SameCalls(s, k, t)
    ensures Enabled(w, k, Deliver(m, a))
  {
    forall i | 0 <= i < |a.ids| ensures FreshId(k, a.ids[i]) {
      assert FreshId(s, a.ids[i]);
    }
  }

  ghost predicate SameCallMaps(calls: Calls, kept: Calls, t: string) {
    && (forall c :: c in kept <==> c in calls && calls[c].tenant == t)
    && (forall c | c in kept :: kept[c] == calls[c])
  }

  /** The call a step touches belongs to the tenant whose step it is. */
  predicate OwnCall(calls: Calls, l: Label) {
    match l
    case Ingest(_, _, _, _) => true
    case Search(_, corr, _, _) => corr !in calls
    case Deliver(m, _) =>
      m.topic.Reply? && m.env.correlationId in calls ==> calls[m.env.correlationId].tenant == TenantOf(l)
    case Return(_, corr, _) => corr in calls && calls[corr].tenant == TenantOf(l)
    case Timeout(_, corr) => corr in calls && calls[corr].tenant == TenantOf(l)
    case Restart(_, _, _) => true
  }

  lemma EnabledOwnCall(w: World, s: State, l: Label)
    requires Inv(w, s) && SearchesOk(s) && CallsOk(s) && Enabled(w, s, l)
    ensures OwnCall(s.calls, l)
  {
    if l.Deliver? && l.m.topic.Reply? && l.m.env.correlationId in s.calls {
      ReplyTenant(w, s, l.m);
    }
  }

  lemma CallMapsNext(w: World, calls: Calls, kept: Calls, t: string, l: Label)
    requires SameCallMaps(calls, kept, t) && OwnCall(calls, l)
    ensures SameCallMaps(CallsNext(w, calls, l), if Seen(l, t) then CallsNext(w, kept, l) else kept, t)
  {
  }

  lemma CallsSeen(w: World, s: State, k: State, t: string, l: Label)
    requires Inv(w, s) && SearchesOk(s) && CallsOk(s) && SameCalls(s, k, t) && Enabled(w, s, l)
    ensures if Seen(l, t) then SameCalls(Next(w, s, l), Next(w, k, l), t) else SameCalls(Next(w, s, l), k, t)
  {
    EnabledOwnCall(w, s, l);
    CallMapsNext(w, s.calls, k.calls, t, l);
    CallsOfNext(w, s, l);
    CallsOfNext(w, k, l);
  }

  lemma StoreSeen(w: World, s: State, k: State, t: string, l: Label)
    requires Slice(k.store, t) == Slice(s.store, t)
    ensures Slice(Next(w, k, l).store, t) == Slice(Next(w, s, l).store, t)
    ensures !Seen(l, t) ==> Slice(Next(w, s, l).store, t) == Slice(s.store, t)
  {
    if l.Deliver? && l.m.topic == TaskEngine {
      SameStoreAfter(s, k, t, l.m.env);
      StoreAfterDelivery(w, s, l.m, l.a);
      StoreAfterDelivery(w, k, l.m, l.a);
    } else if !WipesIndex(l) {
      StoreUntouched(w, s, l);
      StoreUntouched(w, k, l);
    }
  }

  lemma UsedSeen(w: World, s: State, k: State, l: Label)
    requires k.hist.used <= s.hist.used
    ensures Next(w, k, l).hist.used <= Next(w, s, l).hist.used
    ensures k.hist.used <= Next(w, s, l).hist.used
  {
  }

  lemma StreamSeen(w: World, s: State, k: State, t: string, l: Label)
    requires Inv(w, s) && Enabled(w, s, l) && k.stream == PubsOf(s.stream, t)
    requires Seen(l, t) ==> Emitted(w, k, l) == Emitted(w, s, l)
    ensures (if Seen(l, t) then Next(w, k, l).stream else k.stream) == PubsOf(Next(w, s, l).stream, t)
  {
    var pubs := Emitted(w, s, l);
    StreamAfter(w, s, l);
    StreamAfter(w, k, l);
    forall p | p in pubs ensures p.env.tenantId == TenantOf(l) { EmittedTenant(w, s, l, p); }
    PubsOfAppend(s.stream, pubs, t);
    PubsOfOne(pubs, t, TenantOf(l));
    assert PubsOf(s.stream, t) + [] == PubsOf(s.stream, t);
  }

  lemma SameEmitted(w: World, s: State, k: State, t: string, l: Label)
    requires Inv(w, s) && Inv(w, k) && SameBlobs(w, s, k, t) && Enabled(w, s, l) && Seen(l, t)
    ensures Emitted(w, k, l) == Emitted(w, s, l)
  {
    if l.Deliver? {
      SameReaction(w, s, k, t, l.m, l.a);
    }
  }

  /** A step of the kept tenant is the same step of the view. */
  lemma SeenStep(w: World, s: State, k: State, t: string, l: Label)
    requires Inv(w, s) && Inv(w, k) && SearchesOk(s) && CallsOk(s) && View(w, s, k, t)
    requires Enabled(w, s, l) && Seen(l, t)
    ensures Enabled(w, k, l) && View(w, Next(w, s, l), Next(w, k, l), t)
  {
    EnabledSeen(w, s, k, t, l);
    SameEmitted(w, s, k, t, l);
    StreamSeen(w, s, k, t, l);
    PendingSeen(w, s, k, t, l);
    StoreSeen(w, s, k, t, l);
    BlobsSeen(w, s, k, t, l);
    CallsSeen(w, s, k, t, l);
    UsedSeen(w, s, k, l);
  }

  /** A step of another tenant leaves the view as it is. */
  lemma UnseenStep(w: World, s: State, k: State, t: string, l: Label)
    requires Inv(w, s) && SearchesOk(s) && CallsOk(s) && View(w, s, k, t)
    requires Enabled(w, s, l) && !Seen(l, t) && ApartFrom(t, l)
    ensures View(w, Next(w, s, l), k, t)
  {
    StreamSeen(w, s, k, t, l);
    PendingUnseen(w, s, k, t, l);
    StoreSeen(w, s, k, t, l);
    BlobsUnseen(w, s, k, t, l);
    CallsSeen(w, s, k, t, l);
    UsedSeen(w, s, k, l);
  }

  /** Non-interference. From any run in which the other tenants share no URI with tenant t (IDs without slashes
      suffice), erase every step that is not t's: what is left is a run, and t's slice of the index, its messages, blobs
      and waiting calls, and (as the kept labels carry them) every result its searches return, are the same. */
  lemma {:induction false} TenantsDoNotInterfere(w: World, run: seq<Label>, t: string)
    requires IsRun(w, run) && forall i | 0 <= i < |run| :: ApartFrom(t, run[i])
    ensures IsRun(w, Kept(run, t)) && View(w, After(w, run), After(w, Kept(run, t)), t)
  {
    if run == [] {
      assert After(w, Kept(run, t)) == INIT;
    } else {
      var n := |run| - 1;
      assert forall i | 0 <= i < n :: run[..n][i] == run[i];
      TenantsDoNotInterfere(w, run[..n], t);
      InvReachable(w, run[..n]);
      UniqueReachable(w, run[..n]);
      CallsReachable(w, run[..n]);
      KeptStep(w, After(w, run[..n]), Kept(run[..n], t), t, run[n], Kept(run, t));
    }
  }

  lemma KeptStep(w: World, s: State, kept: seq<Label>, t: string, l: Label, next: seq<Label>)
    requires Inv(w, s) && SearchesOk(s) && CallsOk(s) && Enabled(w, s, l) && ApartFrom(t, l)
    requires IsRun(w, kept) && View(w, s, After(w, kept), t)
    requires next == if Seen(l, t) then kept + [l] else kept
    ensures IsRun(w, next) && View(w, Next(w, s, l), After(w, next), t)
  {
    if Seen(l, t) {
      KeptSeen(w, s, kept, t, l);
    } else {
      UnseenStep(w, s, After(w, kept), t, l);
    }
  }

  lemma KeptSeen(w: World, s: State, kept: seq<Label>, t: string, l: Label)
    requires Inv(w, s) && SearchesOk(s) && CallsOk(s) && Enabled(w, s, l) && Seen(l, t)
    requires IsRun(w, kept) && View(w, s, After(w, kept), t)
    ensures IsRun(w, kept + [l]) && View(w, Next(w, s, l), After(w, kept + [l]), t)
  {
    InvReachable(w, kept);
    SeenStep(w, s, After(w, kept), t, l);
    RunExtends(w, kept, l);
  }

  /** In particular, two runs in which a tenant takes the same steps leave it the same index and the same messages,
      whatever the other tenants do. */
  lemma OthersDoNotMatter(w: World, run: seq<Label>, other: seq<Label>, t: string)
    requires IsRun(w, run) && IsRun(w, other) && Kept(run, t) == Kept(other, t)
    requires forall i | 0 <= i < |run| :: ApartFrom(t, run[i])
    requires forall i | 0 <= i < |other| :: ApartFrom(t, other[i])
    ensures Slice(After(w, run).store, t) == Slice(After(w, other).store, t)
    ensures PubsOf(After(w, run).stream, t) == PubsOf(After(w, other).stream, t)
  {
    TenantsDoNotInterfere(w, run, t);
    TenantsDoNotInterfere(w, other, t);
  }
}
