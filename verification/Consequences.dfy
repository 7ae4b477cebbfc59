/** What provenance rules out: along every run the dead letter queue stays empty, no handler meets a type it does not
    know, the index refuses nothing, and ingested text on the bus stays small. */
module Consequences {
  import opened Events
  import opened Text
  import opened Windows
  import opened Bus
  import opened Blobs
  import opened Environment
  import opened Gateway
  import opened Protocol
  import opened Provenance
  import opened Invariant
  import opened Identity
  import opened Ledger
  import opened Refinement
  import opened Linearizability
  import VectorDB
  import Router
  import Embedder
  import Vision
  import Engine

  /** The type of the request an envelope descends from, as the envelope itself tells it. */
  function OriginOf(e: Envelope): EventType {
    match e.typ
    case IngestRequested => IngestRequested
    case SearchRequested => SearchRequested
    case SearchCompleted => SearchRequested
    case _ => OriginalType(e.data)
  }

  ghost predicate DescendsFrom(p: Pub, r: Root) {
    && p.env.tenantId == r.tenantId && p.env.correlationId == r.correlationId && OriginOf(p.env) == r.typ
    && (p.topic.Reply? ==> p.topic == Reply(r.correlationId) && r.typ == SearchRequested)
    && (p.env.typ == EmbedCompleted ==>
          p.env.data.EmbedCompletedPayload? && |p.env.data.chunks| == 1 && p.env.data.chunks[0].vector != [])
  }

  /** Everything on the bus descends from an announced request and carries its tenant, correlation ID and type; nothing
      is ever dead-lettered; and an embedded event holds one chunk, with a vector. */
  lemma EverythingHasItsRequest(w: World, run: seq<Label>, p: Pub) returns (r: Root)
    requires IsRun(w, run) && p in After(w, run).stream
    ensures Pub(Ingress, r) in After(w, run).stream && DescendsFrom(p, r)
    ensures p.topic != Dlq && p.env != NIL_ENVELOPE
  {
    InvReachable(w, run);
    var s := After(w, run);
    assert PubOk(w, s, p);
    if p.topic.Reply? {
      var x :| ReplyOk(w, s, p, x);
      r := x.root;
      ReplyDescends(w, s, p, x);
    } else {
      var x :| ValidSrc(w, s, x) && p.env == EnvOf(w, x) && TopicOk(p.topic, x);
      r := x.root;
      PlaceDescends(w, s, p, x);
    }
  }

  lemma ReplyDescends(w: World, s: State, p: Pub, x: Src)
    requires ReplyOk(w, s, p, x)
    ensures DescendsFrom(p, x.root) && p.topic != Dlq && p.env != NIL_ENVELOPE
  {
  }

  lemma PlaceDescends(w: World, s: State, p: Pub, x: Src)
    requires ValidSrc(w, s, x) && p.env == EnvOf(w, x) && TopicOk(p.topic, x)
    ensures DescendsFrom(p, x.root) && p.topic != Dlq && p.env != NIL_ENVELOPE
  {
  }

  /** The message's consumer has a use for it: the router knows where to forward it, the worker knows its type, and the
      index refuses nothing of it. */
  ghost predicate Understood(m: Msg) {
    match m.topic
    case Ingress => Router.Classify(m.env).Forward? && Router.Classify(m.env).topic != Dlq
    case TaskVision => Vision.JobOf(m.env).Some?
    case TaskEmbed => Embedder.JobOf(m.env).Some?
    case TaskChunk => m.env.typ in {IngestRequested, SearchRequested}
    case TaskEngine =>
      && m.env.typ == EmbedCompleted && m.env.data.EmbedCompletedPayload?
      && m.env.data.originalType in {IngestRequested, SearchRequested}
      && Engine.Accepted(m.env.tenantId, m.env.data.chunks) == |m.env.data.chunks| == 1
      && (Engine.Searches(m.env) <==> m.env.data.originalType == SearchRequested)
    case Reply(corr) => m.env.correlationId == corr && m.env.data.SearchCompletedPayload?
    case Dlq => false
  }

  /** No message ever takes a branch for an unknown type, and the index's errors for an empty tenant or an empty vector
      never fire. */
  lemma NoDeadBranches(w: World, run: seq<Label>, m: Msg)
    requires IsRun(w, run) && m in After(w, run).pending
    ensures Understood(m)
  {
    InvReachable(w, run);
    var s := After(w, run);
    if m.topic.Reply? {
      ReplyUnderstood(w, s, m);
    } else {
      var x := PlaceOf(w, s, m);
      PlaceUnderstood(w, s, m, x);
    }
  }

  lemma ReplyUnderstood(w: World, s: State, m: Msg)
    requires Inv(w, s) && m in s.pending && m.topic.Reply?
    ensures Understood(m)
  {
    var p := Pub(m.topic, m.env);
    assert PubOk(w, s, p);
    var x :| ReplyOk(w, s, p, x);
  }

  lemma PlaceUnderstood(w: World, s: State, m: Msg, x: Src)
    requires ValidSrc(w, s, x) && m.env == EnvOf(w, x) && TopicOk(m.topic, x)
    ensures Understood(m)
  {
    ClassifyAt(w, x);
    if m.topic == TaskEngine {
      EngineAt(w, s, x, Answers([], true, true, [], [], "", false, 0, true));
    }
  }

  /** A terminated delivery leaves its envelope on the dead letter queue exactly when the router terminated it and its
      publish succeeded: settling with Term moves nothing by itself. */
  lemma TermDeadLettersIff(w: World, s: State, m: Msg, a: Answers)
    requires React(w, s, m, a).settle == Termed
    ensures Pub(Dlq, m.env) in React(w, s, m, a).emits <==> m.topic == Ingress && a.Up(0)
  {
  }

  /** What becomes of an event whose type nobody knows: the router puts it on the dead letter queue, if it can, and
      terminates it; every other consumer acknowledges it and does nothing. */
  lemma UnknownTypes(w: World, s: State, e: Envelope, left: nat, a: Answers)
    requires e.typ.Unknown? || e.typ in {SearchCompleted, VisionRequested, ChunkRequested, EmbedRequested}
    requires !a.crashed
    ensures React(w, s, Msg(Ingress, e, left), a) == Reaction(if a.Up(0) then [Pub(Dlq, e)] else [], Termed, {})
    ensures forall t | t in {TaskVision, TaskChunk, TaskEmbed, TaskEngine} ::
              React(w, s, Msg(t, e, left), a) == Reaction([], Acked, {})
  {
  }

  /** A search the index refuses, for want of a tenant or a vector, is put back. */
  lemma RefusedSearchComesBack(w: World, s: State, e: Envelope, left: nat, a: Answers)
    requires e.typ == EmbedCompleted && e.data.EmbedCompletedPayload? && !a.crashed
    requires e.data.originalType == SearchRequested && e.data.chunks != []
    requires e.tenantId == "" || e.data.chunks[0].vector == []
    ensures React(w, s, Msg(TaskEngine, e, left), a) == Reaction([], Nacked, {})
  {
  }

  /** The engine terminates a search without vectors and publishes nothing. */
  lemma EngineTermsSilently(w: World, s: State, e: Envelope, left: nat, a: Answers)
    requires e.typ == EmbedCompleted && e.data.EmbedCompletedPayload? && !a.crashed
    requires e.data.originalType == SearchRequested && e.data.chunks == []
    ensures React(w, s, Msg(TaskEngine, e, left), a) == Reaction([], Termed, {})
  {
  }

  /** No delivery of any run is terminated, so nothing ever needs the dead letter queue. */
  lemma NeverTermed(w: World, run: seq<Label>, m: Msg, a: Answers)
    requires IsRun(w, run) && m in After(w, run).pending
    ensures React(w, After(w, run), m, a).settle != Termed
  {
    InvReachable(w, run);
    NoDeadBranches(w, run, m);
    UnderstoodNotTermed(w, After(w, run), m, a);
  }

  lemma UnderstoodNotTermed(w: World, s: State, m: Msg, a: Answers)
    requires Understood(m)
    ensures React(w, s, m, a).settle != Termed
  {
  }

  function TextsIn(p: Payload): seq<string> {
    match p
    case IngestPayload(_, text, _, _, _) => [text]
    case EmbedRequestedPayload(_, _, text, _, _, _) => [text]
    case EmbedCompletedPayload(_, chunks, _, _) => seq(|chunks|, i requires 0 <= i < |chunks| => chunks[i].text)
    case _ => []
  }

  /** The claim check holds everywhere: whatever descends from a document carries at most 64 KB of text, and a window of
      one at most 2000 bytes, except where the describer wrote the text. */
  lemma ClaimCheckBound(w: World, run: seq<Label>, p: Pub, t: string) returns (r: Root)
    requires IsRun(w, run) && p in After(w, run).stream && t in TextsIn(p.env.data)
    requires OriginOf(p.env) == IngestRequested
    ensures Pub(Ingress, r) in After(w, run).stream && IsIngest(r) && DescendsFrom(p, r)
    ensures Route(r) != TaskVision ==> Utf8Size(t) <= 65536
    ensures Route(r) == TaskChunk && p.env.typ != IngestRequested ==> Utf8Size(t) <= 2000
  {
    InvReachable(w, run);
    var s := After(w, run);
    assert PubOk(w, s, p);
    var x :| ValidSrc(w, s, x) && p.env == EnvOf(w, x) && TopicOk(p.topic, x);
    r := x.root;
    PlaceDescends(w, s, p, x);
    BoundAt(w, s, x, t);
  }

  lemma BoundAt(w: World, s: State, x: Src, t: string)
    requires ValidSrc(w, s, x) && t in TextsIn(EnvOf(w, x).data) && IsIngest(x.root)
    ensures Route(x.root) != TaskVision ==> Utf8Size(t) <= 65536
    ensures Route(x.root) == TaskChunk && !x.stage.AtRoot? ==> Utf8Size(t) <= 2000
  {
    if !x.stage.AtRoot? {
      assert t == TextOf(w, x);
      if Route(x.root) == TaskChunk {
        PublishedSize(x.blob, t);
      }
    }
  }

  // From the request to the index.

  /** In a quiet state, a piece that has a vector is in the index. */
  lemma PieceIndexed(w: World, s: State, r: Root, i: nat) returns (id: string)
    requires Balanced(w, s) && LossesOk(w, s) && Quiet(s) && OneVersion(s, r)
    requires Pub(Ingress, r) in s.stream && IsIngest(r) && i < |Pieces(w, s, r)|
    requires w.vectorise(Pieces(w, s, r)[i]) != []
    ensures VectorDB.Has(s.store, r.tenantId, id)
    ensures s.store[r.tenantId][id].docId == r.data.documentId && s.store[r.tenantId][id].text == Pieces(w, s, r)[i]
  {
    id := PieceStored(w, s, r, i);
    DonePiece(w, s, r, i, id);
  }

  /** Step j accepts a document whose text is too large for the bus. */
  ghost predicate AcceptsLargeText(w: World, run: seq<Label>, j: nat) {
    && j < |run| && run[j].Ingest? && Utf8Size(run[j].q.text) > 65536
    && Emitted(w, After(w, run[..j]), run[j]) != []
  }

  lemma LargeTextRoot(w: World, run: seq<Label>, j: nat) returns (r: Root)
    requires IsRun(w, run) && AcceptsLargeText(w, run, j)
    ensures Pub(Ingress, r) in After(w, run).stream && IsIngest(r) && Route(r) == TaskChunk
    ensures r.data.blobURI == Uri(w.backend, run[j].q.tenant, TextFilename(run[j].n))
    ensures r.tenantId == run[j].q.tenant && r.data.documentId == run[j].n.docId
    ensures (r.data.blobURI, run[j].q.text) in After(w, run).hist.versions
  {
    RunPrefix(w, run, j);
    var s, l := After(w, run[..j]), run[j];
    var p := Emitted(w, s, l)[0];
    InvReachable(w, run[..j]);
    RequestEmits(w, s, l, p);
    r := p.env;
    StreamAfter(w, s, l);
    VersionsAfter(w, s, l);
    RunGrows(w, run, j + 1, |run|);
    assert run[..|run|] == run;
    LargeTextEffect(w, l);
    assert p in After(w, run[..j + 1]).stream;
  }

  lemma LargeTextEffect(w: World, l: Label)
    requires l.Ingest? && Utf8Size(l.q.text) > 65536
    requires IngestEffect(w.backend, l.q, l.n, l.upOk, l.pubOk).pubs != []
    ensures var p := IngestEffect(w.backend, l.q, l.n, l.upOk, l.pubOk).pubs[0];
            && p.env.data.IngestPayload?
            && Router.RouteByContent(p.env.data.mimeType, p.env.data.blobURI) == TaskChunk
            && p.env.data.blobURI == Uri(w.backend, l.q.tenant, TextFilename(l.n))
            && (p.env.data.blobURI, l.q.text) in NewVersions(w.backend, UploadsOf(w, l).0, UploadsOf(w, l).1)
  {
    var us := UploadsOf(w, l).1;
    OneUploadAndBoundedText(w.backend, l.q, l.n, l.upOk, l.pubOk);
    assert us[0] == Upload(TextFilename(l.n), l.q.text);
    KeyOfUri(w.backend, l.q.tenant, us[0].filename);
    PlainTextIsText();
  }

  lemma PlainTextIsText()
    ensures Contains("text/plain", "text/") && !("image/" <= "text/plain")
  {
    var mime := "text/" + "plain";
    assert mime == "text/plain" && mime[..5] == "text/";
    assert OccursAt(mime, "text/", 0);
    assert mime[0] == 't' && "image/"[0] == 'i';
  }

  /** The claim check is transparent: once the pipeline is quiet, every phrase of up to 51 runes that is not all white
      space, out of a text that was too large for the bus, stands whole in a record of that document in the caller's own
      slice of the index, if the generated file name was not drawn again for another text. */
  lemma LargeTextIsIndexed(w: World, run: seq<Label>, j: nat, a: nat, b: nat) returns (id: string)
    requires IsRun(w, run) && Quiet(After(w, run)) && AcceptsLargeText(w, run, j)
    requires OneVersionOf(After(w, run), Uri(w.backend, run[j].q.tenant, TextFilename(run[j].n)))
    requires a < b <= |run[j].q.text| && b - a <= 51 && !AllSpace(run[j].q.text[a..b])
    requires forall t | t in Published(run[j].q.text) :: w.vectorise(t) != []
    ensures var store, tenant := After(w, run).store, run[j].q.tenant;
            && VectorDB.Has(store, tenant, id) && store[tenant][id].docId == run[j].n.docId
            && Contains(store[tenant][id].text, run[j].q.text[a..b])
  {
    LedgerBalances(w, run);
    LossesReachable(w, run);
    var r := LargeTextRoot(w, run, j);
    VersionPieces(w, After(w, run), r, run[j].q.text);
    id := PhraseIndexed(w, After(w, run), r, run[j].q.text, a, b);
  }

  lemma VersionPieces(w: World, s: State, r: Root, text: string)
    requires OneVersion(s, r) && IsIngest(r) && Route(r) == TaskChunk && (r.data.blobURI, text) in s.hist.versions
    ensures Pieces(w, s, r) == Published(text)
  {
  }

  lemma PhraseIndexed(w: World, s: State, r: Root, text: string, a: nat, b: nat) returns (id: string)
    requires Balanced(w, s) && LossesOk(w, s) && Quiet(s) && OneVersion(s, r)
    requires Pub(Ingress, r) in s.stream && IsIngest(r) && Pieces(w, s, r) == Published(text)
    requires forall t | t in Published(text) :: w.vectorise(t) != []
    requires a < b <= |text| && b - a <= 51 && !AllSpace(text[a..b])
    ensures VectorDB.Has(s.store, r.tenantId, id) && s.store[r.tenantId][id].docId == r.data.documentId
    ensures Contains(s.store[r.tenantId][id].text, text[a..b])
  {
    var chunk := PhraseSurvives(text, a, b);
    var i :| 0 <= i < |Published(text)| && Published(text)[i] == chunk;
    id := PieceIndexed(w, s, r, i);
  }
}
