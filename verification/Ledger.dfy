/** The no-loss ledger: every piece of every accepted request is done, in flight, or lost for a recorded cause. */
module Ledger {
  import opened Wrappers
  import opened Events
  import opened Windows
  import opened Bus
  import opened Blobs
  import opened Environment
  import opened VectorDB
  import opened Protocol
  import opened Provenance
  import opened Invariant
  import opened Identity
  import Chunker
  import Engine

  /** The record an embedded piece becomes. */
  function RecordAt(w: World, x: Src): Record {
    Record(DocOf(x.root), w.vectorise(TextOf(w, x)), TextOf(w, x), x.root.data.blobURI, x.root.data.mimeType)
  }

  ghost predicate StoredFrom(w: World, s: State, t: string, id: string, x: Src) {
    && ValidSrc(w, s, x) && x.stage.AtDone? && IsIngest(x.root)
    && x.root.tenantId == t && x.id == id
    && Has(s.store, t, id) && s.store[t][id] == RecordAt(w, x)
  }

  /** Every stored record is a piece of an accepted document of that tenant. */
  ghost predicate StoreOk(w: World, s: State) {
    forall t, id | Has(s.store, t, id) :: exists x :: StoredFrom(w, s, t, id, x)
  }

  ghost predicate Sound(w: World, s: State) {
    Inv(w, s) && Unique(s) && StoreOk(w, s)
  }

  lemma EngineStores(w: World, s: State, x: Src)
    requires ValidSrc(w, s, x) && x.stage.AtDone?
    ensures Engine.StoreAfter(s.store, EnvOf(w, x)) ==
            if IsIngest(x.root) then Upserted(s.store, x.root.tenantId, x.id, RecordAt(w, x)) else s.store
  {
    var env := EnvOf(w, x);
    var chunks := env.data.chunks;
    EngineAt(w, s, x, Answers([], true, true, [], [], "", false, 0, true));
    if IsIngest(x.root) {
      assert chunks[..1] == chunks;
      UpsertOne(s.store, x.root.tenantId, DocOf(x.root), chunks[0]);
      assert chunks == [chunks[0]];
    }
  }

  lemma UpsertOne(store: Store, tenant: string, docId: string, c: Chunk)
    ensures Engine.UpsertAll(store, tenant, docId, [c]) == Upserted(store, tenant, c.chunkId, Engine.RecordOf(docId, c))
  {
    assert [c][..0] == [];
  }

  /** The index is left alone, gets the one record of an embedded piece, or is wiped by a restart. */
  ghost predicate StoreMoves(w: World, s: State, s': State, x: Src) {
    || s'.store == s.store || s'.store == map[]
    || (&& ValidSrc(w, s, x) && x.stage.AtDone? && IsIngest(x.root)
        && s'.store == Upserted(s.store, x.root.tenantId, x.id, RecordAt(w, x)))
  }

  predicate WipesIndex(l: Label) {
    l.Restart? && l.index
  }

  /** The only steps that touch the index are an engine delivery that runs, and a restart of the engine. */
  lemma StoreAfterStep(w: World, s: State, l: Label) returns (x: Src)
    requires Inv(w, s) && Enabled(w, s, l)
    ensures StoreMoves(w, s, Next(w, s, l), x)
    ensures Next(w, s, l).store == map[] ==> WipesIndex(l) || s.store == map[]
  {
    x := *;
    if l.Deliver? && l.m.topic == TaskEngine {
      x := PlaceOf(w, s, l.m);
      EngineMoves(w, s, l.m, l.a, x);
    } else if !WipesIndex(l) {
      StoreUntouched(w, s, l);
    }
  }

  lemma EngineMoves(w: World, s: State, m: Msg, a: Answers, x: Src)
    requires ValidSrc(w, s, x) && m.env == EnvOf(w, x) && m.topic == TaskEngine && TopicOk(m.topic, x)
    ensures StoreMoves(w, s, Next(w, s, Deliver(m, a)), x)
    ensures Next(w, s, Deliver(m, a)).store == map[] ==> s.store == map[]
  {
    EngineStores(w, s, x);
    StoreAfterDelivery(w, s, m, a);
  }

  lemma StoreAfterDelivery(w: World, s: State, m: Msg, a: Answers)
    requires m.topic == TaskEngine
    ensures Next(w, s, Deliver(m, a)).store == if a.crashed then s.store else Engine.StoreAfter(s.store, m.env)
  {
  }

  lemma StoreUntouched(w: World, s: State, l: Label)
    requires !(l.Deliver? && l.m.topic == TaskEngine) && !WipesIndex(l)
    ensures Next(w, s, l).store == s.store
  {
  }

  lemma SameKeySameRecord(w: World, s: State, x: Src, y: Src)
    requires Unique(s) && ValidSrc(w, s, x) && ValidSrc(w, s, y)
    requires x.stage.AtDone? && y.stage.AtDone? && IsIngest(x.root) && IsIngest(y.root) && x.id == y.id
    requires |x.id| == UUID_LENGTH || OneVersionOf(s, y.root.data.blobURI)
    ensures RecordAt(w, x) == RecordAt(w, y)
  {
    ChunkIdDetermines(w, s, x, y);
  }

  /** The record's text does not depend on which of several contents a describer saw: its ID is a UUID, hence not a
      vision record's, or everything uploaded under its URI was the same. */
  ghost predicate Steady(s: State, t: string, id: string) {
    Has(s.store, t, id) && (|id| == UUID_LENGTH || OneVersionOf(s, s.store[t][id].fileURI))
  }

  lemma RecordKeptAt(w: World, s: State, s': State, x: Src, t: string, id: string)
    requires Unique(s) && StoreOk(w, s) && StoreMoves(w, s, s', x) && Steady(s, t, id) && s'.store != map[]
    ensures Has(s'.store, t, id) && s'.store[t][id] == s.store[t][id]
  {
    if s'.store != s.store {
      HasUpserted(s.store, x.root.tenantId, x.id, RecordAt(w, x), t, id);
      if x.root.tenantId == t && x.id == id {
        var y :| StoredFrom(w, s, t, id, y);
        SameKeySameRecord(w, s, x, y);
      }
    }
  }

  /** Short of a restart of the engine, a record is never removed, and unless it is a vision record whose image was
      replaced it is never changed, whatever else is uploaded. */
  lemma RecordKept(w: World, s: State, l: Label, t: string, id: string)
    requires Inv(w, s) && Unique(s) && StoreOk(w, s) && Enabled(w, s, l) && Steady(s, t, id) && !WipesIndex(l)
    ensures Has(Next(w, s, l).store, t, id) && Next(w, s, l).store[t][id] == s.store[t][id]
  {
    var x := StoreAfterStep(w, s, l);
    RecordKeptAt(w, s, Next(w, s, l), x, t, id);
  }

  lemma StoredFromNext(w: World, s: State, s': State, x: Src, t: string, id: string) returns (y: Src)
    requires Grows(s, s') && StoreOk(w, s) && StoreMoves(w, s, s', x) && Has(s'.store, t, id)
    ensures StoredFrom(w, s', t, id, y)
  {
    if s'.store == s.store {
      y :| StoredFrom(w, s, t, id, y);
    } else {
      HasUpserted(s.store, x.root.tenantId, x.id, RecordAt(w, x), t, id);
      if x.root.tenantId == t && x.id == id {
        y := x;
      } else {
        y :| StoredFrom(w, s, t, id, y);
      }
    }
    SrcKept(w, s, s', y);
  }

  lemma StoreOkNext(w: World, s: State, l: Label)
    requires Inv(w, s) && StoreOk(w, s) && Enabled(w, s, l)
    ensures StoreOk(w, Next(w, s, l))
  {
    var s' := Next(w, s, l);
    NextGrows(w, s, l);
    var x := StoreAfterStep(w, s, l);
    forall t, id | Has(s'.store, t, id) ensures exists y :: StoredFrom(w, s', t, id, y) {
      var y := StoredFromNext(w, s, s', x, t, id);
    }
  }

  lemma {:induction false} StoreOkReachable(w: World, run: seq<Label>)
    requires IsRun(w, run)
    ensures StoreOk(w, After(w, run))
  {
    if run != [] {
      var n := |run| - 1;
      StoreOkReachable(w, run[..n]);
      InvReachable(w, run[..n]);
      StoreOkNext(w, After(w, run[..n]), run[n]);
    }
  }

  lemma SoundReachable(w: World, run: seq<Label>)
    requires IsRun(w, run)
    ensures Sound(w, After(w, run))
  {
    UniqueReachable(w, run);
    StoreOkReachable(w, run);
  }

  // The ledger.

  /** x carries piece i of r; if a chunk ID is wanted, under that very ID. */
  ghost predicate CarriedBy(w: World, s: State, x: Src, env: Envelope, r: Root, i: nat, want: Option<string>) {
    && ValidSrc(w, s, x) && EnvOf(w, x) == env && x.root == r
    && if x.stage.AtRoot? then want.None? else x.i == i && (want.None? || want == Some(x.id))
  }

  ghost predicate InFlight(w: World, s: State, r: Root, i: nat, want: Option<string>) {
    exists m, x :: m in s.pending && CarriedBy(w, s, x, m.env, r, i, want)
  }

  ghost predicate Lost(w: World, s: State, r: Root, i: nat, want: Option<string>) {
    exists e, x :: e in s.hist.losses && CarriedBy(w, s, x, e.env, r, i, want)
  }

  ghost function DoneSrc(s: State, r: Root, i: nat, id: string): Src {
    Src(AtDone, r, if Content(s, r).Some? then Content(s, r).value else "", i, id)
  }

  ghost predicate StoredAs(w: World, s: State, r: Root, i: nat, id: string) {
    var x := DoneSrc(s, r, i, id);
    IdOk(w, s, x) && Has(s.store, r.tenantId, id) && s.store[r.tenantId][id] == RecordAt(w, x)
  }

  /** The piece was stored when the engine last restarted, or before. */
  ghost predicate WipedAs(w: World, s: State, r: Root, i: nat, id: string) {
    var x := DoneSrc(s, r, i, id);
    IdOk(w, s, x) && Wiped(r.tenantId, id, RecordAt(w, x)) in s.hist.wiped
  }

  ghost predicate IndexedAs(w: World, s: State, r: Root, i: nat, id: string) {
    StoredAs(w, s, r, i, id) || WipedAs(w, s, r, i, id)
  }

  ghost predicate Replied(s: State, corr: string) {
    exists p :: p in s.stream && p.topic == Reply(corr)
  }

  /** An ingest's piece is stored under its name, the wanted one if there is one, or was before a restart; a search's
      is replied to. */
  ghost predicate Fulfilled(w: World, s: State, r: Root, i: nat, want: Option<string>) {
    if IsIngest(r) then exists id :: (want.None? || want == Some(id)) && IndexedAs(w, s, r, i, id)
    else Replied(s, r.correlationId)
  }

  ghost predicate Accounted(w: World, s: State, r: Root, i: nat, want: Option<string>) {
    Fulfilled(w, s, r, i, want) || InFlight(w, s, r, i, want) || Lost(w, s, r, i, want)
  }

  ghost predicate Balanced(w: World, s: State) {
    forall r: Root, i: nat | Pub(Ingress, r) in s.stream && OneVersion(s, r) && i < |Pieces(w, s, r)| ::
      Accounted(w, s, r, i, None)
  }

  lemma CarriedKept(w: World, s: State, s': State, x: Src, env: Envelope, r: Root, i: nat, want: Option<string>)
    requires Grows(s, s') && CarriedBy(w, s, x, env, r, i, want)
    ensures CarriedBy(w, s', x, env, r, i, want)
  {
    SrcKept(w, s, s', x);
  }

  lemma FulfilledKept(w: World, s: State, l: Label, r: Root, i: nat, want: Option<string>)
    requires Sound(w, s) && Enabled(w, s, l) && Pub(Ingress, r) in s.stream && OneVersion(Next(w, s, l), r)
    requires Fulfilled(w, s, r, i, want)
    ensures Fulfilled(w, Next(w, s, l), r, i, want)
  {
    NextGrows(w, s, l);
    if IsIngest(r) {
      var id :| (want.None? || want == Some(id)) && IndexedAs(w, s, r, i, id);
      PiecesKept(w, s, l, r);
      IndexedKept(w, s, l, r, i, id);
    } else {
      ReplyKept(s, Next(w, s, l), r.correlationId);
    }
  }

  lemma IndexedKept(w: World, s: State, l: Label, r: Root, i: nat, id: string)
    requires Sound(w, s) && Enabled(w, s, l) && IndexedAs(w, s, r, i, id) && IsIngest(r) && Pub(Ingress, r) in s.stream
    requires OneVersion(s, r) && Content(Next(w, s, l), r) == Content(s, r)
    ensures IndexedAs(w, Next(w, s, l), r, i, id)
  {
    var s' := Next(w, s, l);
    NextGrows(w, s, l);
    if WipedAs(w, s, r, i, id) {
      WipedKept(w, s, s', r, i, id);
    } else if WipesIndex(l) {
      StoredWiped(w, s, l, r, i, id);
    } else {
      StoredSteady(w, s, r, i, id);
      RecordKept(w, s, l, r.tenantId, id);
      NameKept(w, s, s', r, i, id);
    }
  }

  lemma StoredSteady(w: World, s: State, r: Root, i: nat, id: string)
    requires DocsOk(s) && StoredAs(w, s, r, i, id) && IsIngest(r) && Pub(Ingress, r) in s.stream && OneVersion(s, r)
    ensures Steady(s, r.tenantId, id)
  {
    assert IsIngestRoot(Pub(Ingress, r).env);
  }

  lemma WipedKept(w: World, s: State, s': State, r: Root, i: nat, id: string)
    requires Grows(s, s') && Content(s', r) == Content(s, r) && WipedAs(w, s, r, i, id)
    ensures WipedAs(w, s', r, i, id)
  {
    assert DoneSrc(s', r, i, id) == DoneSrc(s, r, i, id);
  }

  lemma StoredWiped(w: World, s: State, l: Label, r: Root, i: nat, id: string)
    requires WipesIndex(l) && StoredAs(w, s, r, i, id) && Content(Next(w, s, l), r) == Content(s, r)
    ensures WipedAs(w, Next(w, s, l), r, i, id)
  {
    assert DoneSrc(Next(w, s, l), r, i, id) == DoneSrc(s, r, i, id);
    assert Wiped(r.tenantId, id, s.store[r.tenantId][id]) in Records(s.store);
  }

  lemma ReplyKept(s: State, s': State, corr: string)
    requires Grows(s, s') && Replied(s, corr)
    ensures Replied(s', corr)
  {
    var p :| p in s.stream && p.topic == Reply(corr);
    assert p in s'.stream;
  }

  lemma NameKept(w: World, s: State, s': State, r: Root, i: nat, id: string)
    requires Grows(s, s') && Content(s', r) == Content(s, r) && StoredAs(w, s, r, i, id)
    requires Has(s'.store, r.tenantId, id) && s'.store[r.tenantId][id] == s.store[r.tenantId][id]
    ensures StoredAs(w, s', r, i, id)
  {
    assert DoneSrc(s', r, i, id) == DoneSrc(s, r, i, id);
  }

  lemma LostKept(w: World, s: State, l: Label, r: Root, i: nat, want: Option<string>)
    requires Lost(w, s, r, i, want)
    ensures Lost(w, Next(w, s, l), r, i, want)
  {
    NextGrows(w, s, l);
    var e, x :| e in s.hist.losses && CarriedBy(w, s, x, e.env, r, i, want);
    CarriedKept(w, s, Next(w, s, l), x, e.env, r, i, want);
  }

  /** The envelope alone tells where its place's messages are consumed. */
  lemma SameEnvelopeSameTarget(w: World, x: Src, y: Src)
    requires EnvOf(w, x) == EnvOf(w, y)
    ensures Target(x) == Target(y)
  {
  }

  lemma ReplyNotPlace(w: World, s: State, p: Pub, x: Src)
    requires PubOk(w, s, p) && p.topic.Reply?
    ensures p.env != EnvOf(w, x)
  {
  }

  /** A message that carries a piece is on that place's topic. */
  lemma CarrierTopic(w: World, s: State, m: Msg, x: Src)
    requires Inv(w, s) && m in s.pending && m.env == EnvOf(w, x)
    ensures TopicOk(m.topic, x) && !m.topic.Reply?
  {
    var p := Pub(m.topic, m.env);
    assert p in s.stream;
    if m.topic.Reply? {
      ReplyNotPlace(w, s, p, x);
    } else {
      var y := PlaceOf(w, s, m);
      SameEnvelopeSameTarget(w, x, y);
    }
  }

  lemma EmittedPending(w: World, s: State, m: Msg, a: Answers, p: Pub)
    requires Enabled(w, s, Deliver(m, a)) && p in React(w, s, m, a).emits && p.topic != Dlq
    ensures Msg(p.topic, p.env, MAX_DELIVER) in Next(w, s, Deliver(m, a)).pending
  {
    ArrivalsMember(React(w, s, m, a).emits, Msg(p.topic, p.env, MAX_DELIVER));
  }

  lemma LossRecorded(w: World, s: State, m: Msg, a: Answers, e: Loss)
    requires e in React(w, s, m, a).losses
    ensures e in Next(w, s, Deliver(m, a)).hist.losses
  {
  }

  lemma HandsOver(w: World, s: State, m: Msg, a: Answers, y: Src, t: Topic, r: Root, i: nat, want: Option<string>)
    requires Enabled(w, s, Deliver(m, a)) && Pub(t, EnvOf(w, y)) in React(w, s, m, a).emits && t != Dlq
    requires var s' := Next(w, s, Deliver(m, a)); CarriedBy(w, s', y, EnvOf(w, y), r, i, want)
    ensures InFlight(w, Next(w, s, Deliver(m, a)), r, i, want)
  {
    EmittedPending(w, s, m, a, Pub(t, EnvOf(w, y)));
    assert Msg(t, EnvOf(w, y), MAX_DELIVER).env == EnvOf(w, y);
  }

  lemma Drops(w: World, s: State, m: Msg, a: Answers, e: Loss, y: Src, r: Root, i: nat, want: Option<string>)
    requires e in React(w, s, m, a).losses
    requires var s' := Next(w, s, Deliver(m, a)); CarriedBy(w, s', y, e.env, r, i, want)
    ensures Lost(w, Next(w, s, Deliver(m, a)), r, i, want)
  {
    LossRecorded(w, s, m, a, e);
  }

  lemma RouterAccounts(w: World, s: State, m: Msg, a: Answers, x: Src, r: Root, i: nat, want: Option<string>)
    requires Enabled(w, s, Deliver(m, a)) && CarriedBy(w, s, x, m.env, r, i, want) && m.topic == Ingress
    requires !a.crashed && React(w, s, m, a).settle != Nacked
    ensures InFlight(w, Next(w, s, Deliver(m, a)), r, i, want)
  {
    NextGrows(w, s, Deliver(m, a));
    ClassifyAt(w, x);
    CarriedKept(w, s, Next(w, s, Deliver(m, a)), x, m.env, r, i, want);
    HandsOver(w, s, m, a, x, Target(x), r, i, want);
  }

  lemma EmbedderAccounts(w: World, s: State, m: Msg, a: Answers, x: Src, r: Root, i: nat, want: Option<string>)
    requires Enabled(w, s, Deliver(m, a)) && CarriedBy(w, s, x, m.env, r, i, want) && m.topic == TaskEmbed == Target(x)
    requires i < |Pieces(w, s, r)|
    requires !a.crashed && React(w, s, m, a).settle != Nacked
    ensures InFlight(w, Next(w, s, Deliver(m, a)), r, i, want) || Lost(w, Next(w, s, Deliver(m, a)), r, i, want)
  {
    var s' := Next(w, s, Deliver(m, a));
    NextGrows(w, s, Deliver(m, a));
    EmbedAt(w, s, x, a);
    var y := Embedded(x);
    CarriedKept(w, s, s', x, m.env, r, i, want);
    if w.vectorise(TextOf(w, y)) == [] {
      Drops(w, s, m, a, Loss.EmptyVector(m.env), x, r, i, want);
    } else {
      SrcKept(w, s, s', y);
      assert CarriedBy(w, s', y, EnvOf(w, y), r, i, want);
      if a.Up(0) {
        HandsOver(w, s, m, a, y, Ingress, r, i, want);
      } else {
        Drops(w, s, m, a, Unpublished(EnvOf(w, y)), y, r, i, want);
      }
    }
  }

  lemma VisionAccounts(w: World, s: State, m: Msg, a: Answers, x: Src, r: Root, i: nat)
    requires Inv(w, s) && Enabled(w, s, Deliver(m, a)) && CarriedBy(w, s, x, m.env, r, i, None)
    requires m.topic == TaskVision == Target(x) && i < |Pieces(w, s, r)|
    requires !a.crashed && React(w, s, m, a).settle != Nacked
    ensures InFlight(w, Next(w, s, Deliver(m, a)), r, i, None) || Lost(w, Next(w, s, Deliver(m, a)), r, i, None)
  {
    var s' := Next(w, s, Deliver(m, a));
    NextGrows(w, s, Deliver(m, a));
    VisionAt(w, s, x, a);
    DownloadIsVersion(w, s, r);
    var y := Src(AtTask, r, Download(w.backend, s.blobs, r.data.blobURI).value, 0, DocOf(r) + "-vision");
    DescribedPiece(w, s, s', r, i, y);
    if a.Up(0) {
      HandsOver(w, s, m, a, y, Ingress, r, i, None);
    } else {
      Drops(w, s, m, a, Unpublished(EnvOf(w, y)), y, r, i, None);
    }
  }

  lemma DescribedPiece(w: World, s: State, s': State, r: Root, i: nat, y: Src)
    requires Grows(s, s') && Pub(Ingress, r) in s.stream && Route(r) == TaskVision && i < |Pieces(w, s, r)|
    requires (r.data.blobURI, y.blob) in s.hist.versions && y == Src(AtTask, r, y.blob, 0, DocOf(r) + "-vision")
    ensures CarriedBy(w, s', y, EnvOf(w, y), r, i, None)
  {
    DescribedSrcValid(w, s, r, y.blob);
    SrcKept(w, s, s', y);
  }

  lemma ChunkerAccounts(w: World, s: State, m: Msg, a: Answers, x: Src, r: Root, i: nat)
    requires Inv(w, s) && Enabled(w, s, Deliver(m, a)) && CarriedBy(w, s, x, m.env, r, i, None)
    requires m.topic == TaskChunk == Target(x) && OneVersion(s, r) && i < |Pieces(w, s, r)|
    requires !a.crashed && React(w, s, m, a).settle != Nacked
    ensures InFlight(w, Next(w, s, Deliver(m, a)), r, i, None) || Lost(w, Next(w, s, Deliver(m, a)), r, i, None)
  {
    CarriedToChunker(w, s, m, x, r, i);
    AllNamed(w, s, m, a, r);
    WindowAccountsAnyId(w, s, m, a, r, i);
  }

  lemma CarriedToChunker(w: World, s: State, m: Msg, x: Src, r: Root, i: nat)
    requires CarriedBy(w, s, x, m.env, r, i, None) && m.topic == TaskChunk == Target(x)
    ensures Pub(Ingress, r) in s.stream && m.env == r && Route(r) == TaskChunk
  {
  }

  lemma WindowAccountsAnyId(w: World, s: State, m: Msg, a: Answers, r: Root, i: nat)
    requires Inv(w, s) && Enabled(w, s, Deliver(m, a)) && Pub(Ingress, r) in s.stream
    requires m.topic == TaskChunk == Route(r) && m.env == r && i < |Named(w, s, m, a)|
    ensures InFlight(w, Next(w, s, Deliver(m, a)), r, i, None) || Lost(w, Next(w, s, Deliver(m, a)), r, i, None)
  {
    WindowAccounts(w, s, m, a, r, i);
    AnyId(w, Next(w, s, Deliver(m, a)), r, i, a.Id(i));
  }

  lemma AllNamed(w: World, s: State, m: Msg, a: Answers, r: Root)
    requires Inv(w, s) && Pub(Ingress, r) in s.stream && OneVersion(s, r) && m.topic == TaskChunk == Route(r)
    requires m.env == r && Pieces(w, s, r) != [] && !a.crashed && React(w, s, m, a).settle != Nacked
    ensures |Named(w, s, m, a)| == |Pieces(w, s, r)|
  {
    DownloadContent(w, s, r);
  }

  lemma AnyId(w: World, s: State, r: Root, i: nat, id: string)
    ensures InFlight(w, s, r, i, Some(id)) ==> InFlight(w, s, r, i, None)
    ensures Lost(w, s, r, i, Some(id)) ==> Lost(w, s, r, i, None)
  {
    if InFlight(w, s, r, i, Some(id)) {
      var m, x :| m in s.pending && CarriedBy(w, s, x, m.env, r, i, Some(id));
      assert CarriedBy(w, s, x, m.env, r, i, None);
    }
    if Lost(w, s, r, i, Some(id)) {
      var e, x :| e in s.hist.losses && CarriedBy(w, s, x, e.env, r, i, Some(id));
      assert CarriedBy(w, s, x, e.env, r, i, None);
    }
  }

  /** A window the chunker names is on its way under its new ID, or recorded as lost under it. */
  lemma WindowAccounts(w: World, s: State, m: Msg, a: Answers, r: Root, i: nat)
    requires Inv(w, s) && Enabled(w, s, Deliver(m, a)) && Pub(Ingress, r) in s.stream
    requires m.topic == TaskChunk == Route(r) && m.env == r && i < |Named(w, s, m, a)|
    ensures var s' := Next(w, s, Deliver(m, a));
            InFlight(w, s', r, i, Some(a.Id(i))) || Lost(w, s', r, i, Some(a.Id(i)))
  {
    var s' := Next(w, s, Deliver(m, a));
    NextGrows(w, s, Deliver(m, a));
    WindowNamed(w, s, m, a, r, i);
    var y := ChunkSrc(r, Download(w.backend, s.blobs, r.data.blobURI).value, i, a.Id(i));
    DownloadIsVersion(w, s, r);
    NamedPiece(w, s, s', r, i, y);
    WindowSentOrLost(w, s, m, a, r, i, y);
    if a.Up(i) {
      HandsOver(w, s, m, a, y, Ingress, r, i, Some(y.id));
    } else {
      Drops(w, s, m, a, Unpublished(EnvOf(w, y)), y, r, i, Some(y.id));
    }
  }

  lemma WindowNamed(w: World, s: State, m: Msg, a: Answers, r: Root, i: nat)
    requires m.topic == TaskChunk && m.env == r && Route(r) == TaskChunk && i < |Named(w, s, m, a)|
    ensures var content := Download(w.backend, s.blobs, r.data.blobURI);
            && IsIngest(r) && a.getOk && content.Some? && i < |Published(content.value)|
            && Name(a.Id(i), DocOf(r), i, Published(content.value)[i]) in Next(w, s, Deliver(m, a)).hist.names
  {
    NamesAfter(w, s, m, a);
    assert Name(a.Id(i), DocOf(r), i, Named(w, s, m, a)[i]) in NewNames(w, s, m, a);
  }

  lemma NamedPiece(w: World, s: State, s': State, r: Root, i: nat, y: Src)
    requires Grows(s, s') && Pub(Ingress, r) in s.stream && Route(r) == TaskChunk && IsIngest(r)
    requires y == ChunkSrc(r, y.blob, i, y.id) && i < |Published(y.blob)|
    requires Name(y.id, DocOf(r), i, Published(y.blob)[i]) in s'.hist.names
    requires (r.data.blobURI, y.blob) in s.hist.versions
    ensures CarriedBy(w, s', y, EnvOf(w, y), r, i, Some(y.id))
  {
    NamedSrcValid(w, s', y);
  }

  lemma WindowSentOrLost(w: World, s: State, m: Msg, a: Answers, r: Root, i: nat, y: Src)
    requires m.topic == TaskChunk && m.env == r && Route(r) == TaskChunk && IsIngest(r) && a.getOk
    requires Download(w.backend, s.blobs, r.data.blobURI) == Some(y.blob)
    requires y == ChunkSrc(r, y.blob, i, a.Id(i)) && i < |Named(w, s, m, a)|
    ensures if a.Up(i) then Pub(Ingress, EnvOf(w, y)) in React(w, s, m, a).emits
            else Unpublished(EnvOf(w, y)) in React(w, s, m, a).losses
  {
    ChunkAt(w, r, y.blob, i, a);
    if a.Up(i) {
      var p := Pub(Ingress, EnvOf(w, y));
      assert Chunker.SentAs(m.env, Named(w, s, m, a), a, p, i);
      Chunker.EmitsMembers(m.env, Named(w, s, m, a), a, p);
    }
  }

  lemma EngineAccounts(w: World, s: State, m: Msg, a: Answers, x: Src, r: Root, i: nat, want: Option<string>)
    requires Sound(w, s) && Enabled(w, s, Deliver(m, a)) && OneVersion(Next(w, s, Deliver(m, a)), r)
    requires CarriedBy(w, s, x, m.env, r, i, want) && m.topic == TaskEngine == Target(x) && i < |Pieces(w, s, r)|
    requires !a.crashed && React(w, s, m, a).settle != Nacked
    ensures Fulfilled(w, Next(w, s, Deliver(m, a)), r, i, want)
  {
    var l := Deliver(m, a);
    var s' := Next(w, s, l);
    NextGrows(w, s, l);
    if IsIngest(r) {
      EngineStores(w, s, x);
      StoreAfterDelivery(w, s, m, a);
      PiecesKept(w, s, l, r);
      SrcContent(w, s, x);
      PieceUpserted(w, s, s', x);
      assert IndexedAs(w, s', r, i, x.id);
    } else {
      ReplySent(w, s, m, a, x);
    }
  }

  lemma PieceUpserted(w: World, s: State, s': State, x: Src)
    requires Grows(s, s') && ValidSrc(w, s, x) && x.stage.AtDone? && IsIngest(x.root)
    requires Content(s', x.root) == Some(x.blob)
    requires s'.store == Upserted(s.store, x.root.tenantId, x.id, RecordAt(w, x))
    ensures StoredAs(w, s', x.root, x.i, x.id)
  {
    SrcKept(w, s, s', x);
    HasUpserted(s.store, x.root.tenantId, x.id, RecordAt(w, x), x.root.tenantId, x.id);
    assert DoneSrc(s', x.root, x.i, x.id) == x;
  }

  lemma ReplySent(w: World, s: State, m: Msg, a: Answers, x: Src)
    requires ValidSrc(w, s, x) && x.stage.AtDone? && !IsIngest(x.root) && m.env == EnvOf(w, x) && m.topic == TaskEngine
    requires !a.crashed && React(w, s, m, a).settle != Nacked
    ensures Replied(Next(w, s, Deliver(m, a)), x.root.correlationId)
  {
    EngineAt(w, s, x, a);
    StreamAfter(w, s, Deliver(m, a));
    var p := React(w, s, m, a).emits[0];
    assert p in Emitted(w, s, Deliver(m, a)) && p.topic == Reply(x.root.correlationId);
  }

  /** A delivery that is settled for good passes the piece on, fulfils it, or records its loss. */
  lemma SettledAccounts(w: World, s: State, m: Msg, a: Answers, x: Src, r: Root, i: nat, want: Option<string>)
    requires Sound(w, s) && Enabled(w, s, Deliver(m, a)) && OneVersion(Next(w, s, Deliver(m, a)), r)
    requires CarriedBy(w, s, x, m.env, r, i, want) && i < |Pieces(w, s, r)|
    requires !a.crashed && React(w, s, m, a).settle != Nacked
    ensures Accounted(w, Next(w, s, Deliver(m, a)), r, i, want)
  {
    CarrierTopic(w, s, m, x);
    PiecesKept(w, s, Deliver(m, a), r);
    match m.topic
    case Ingress => RouterAccounts(w, s, m, a, x, r, i, want);
    case TaskEmbed => EmbedderAccounts(w, s, m, a, x, r, i, want);
    case TaskVision => VisionAccounts(w, s, m, a, x, r, i);
    case TaskChunk => ChunkerAccounts(w, s, m, a, x, r, i);
    case TaskEngine => EngineAccounts(w, s, m, a, x, r, i, want);
  }

  /** A delivery that is not settled comes back, or was the last and is recorded as exhausted. */
  lemma UnsettledAccounts(w: World, s: State, m: Msg, a: Answers, x: Src, r: Root, i: nat, want: Option<string>)
    requires Enabled(w, s, Deliver(m, a)) && CarriedBy(w, s, x, m.env, r, i, want)
    requires Settled(React(w, s, m, a), a) == None || Settled(React(w, s, m, a), a) == Some(Nacked)
    ensures InFlight(w, Next(w, s, Deliver(m, a)), r, i, want) || Lost(w, Next(w, s, Deliver(m, a)), r, i, want)
  {
    var s' := Next(w, s, Deliver(m, a));
    NextGrows(w, s, Deliver(m, a));
    CarriedKept(w, s, s', x, m.env, r, i, want);
    if m.left > 1 {
      var again := m.(left := m.left - 1);
      assert again in s'.pending && again.env == m.env;
    } else {
      assert Exhausted(m.env) in s'.hist.losses && Exhausted(m.env).env == m.env;
    }
  }

  lemma StillPending(w: World, s: State, l: Label, m: Msg)
    requires m in s.pending && !(l.Deliver? && l.m == m)
    ensures m in Next(w, s, l).pending
  {
  }

  lemma AccountedNext(w: World, s: State, l: Label, r: Root, i: nat, want: Option<string>)
    requires Sound(w, s) && Enabled(w, s, l) && OneVersion(Next(w, s, l), r)
    requires Pub(Ingress, r) in s.stream && i < |Pieces(w, s, r)| && Accounted(w, s, r, i, want)
    ensures Accounted(w, Next(w, s, l), r, i, want)
  {
    if Fulfilled(w, s, r, i, want) {
      FulfilledKept(w, s, l, r, i, want);
    } else if Lost(w, s, r, i, want) {
      LostKept(w, s, l, r, i, want);
    } else {
      var m, x :| m in s.pending && CarriedBy(w, s, x, m.env, r, i, want);
      if !(l.Deliver? && l.m == m) {
        StillPending(w, s, l, m);
        NextGrows(w, s, l);
        CarriedKept(w, s, Next(w, s, l), x, m.env, r, i, want);
      } else {
        var settled := Settled(React(w, s, m, l.a), l.a);
        if settled == None || settled == Some(Nacked) {
          UnsettledAccounts(w, s, m, l.a, x, r, i, want);
        } else {
          SettledAccounts(w, s, m, l.a, x, r, i, want);
        }
      }
    }
  }

  lemma BalancedNext(w: World, s: State, l: Label)
    requires Sound(w, s) && Balanced(w, s) && Enabled(w, s, l)
    ensures Balanced(w, Next(w, s, l))
  {
    var s' := Next(w, s, l);
    forall r: Root, i: nat | Pub(Ingress, r) in s'.stream && OneVersion(s', r) && i < |Pieces(w, s', r)|
      ensures Accounted(w, s', r, i, None)
    {
      var p := Pub(Ingress, r);
      if p in s.stream {
        PiecesKept(w, s, l, r);
        AccountedNext(w, s, l, r, i, None);
      } else {
        NewlyInFlight(w, s, l, r, i);
      }
    }
  }

  /** A request enters the ledger in flight, as a message on ingress. */
  lemma NewlyInFlight(w: World, s: State, l: Label, r: Root, i: nat)
    requires Inv(w, s) && Enabled(w, s, l)
    requires Pub(Ingress, r) in Next(w, s, l).stream && Pub(Ingress, r) !in s.stream
    ensures InFlight(w, Next(w, s, l), r, i, None)
  {
    var s' := Next(w, s, l);
    NewRequestPending(w, s, l, r);
    RootInFlight(w, s', r, i);
  }

  lemma RootInFlight(w: World, s: State, r: Root, i: nat)
    requires Pub(Ingress, r) in s.stream && Msg(Ingress, r, MAX_DELIVER) in s.pending
    ensures InFlight(w, s, r, i, None)
  {
    assert CarriedBy(w, s, Src(AtRoot, r, "", 0, ""), Msg(Ingress, r, MAX_DELIVER).env, r, i, None);
  }

  lemma NewRequestPending(w: World, s: State, l: Label, r: Root)
    requires Inv(w, s) && Enabled(w, s, l)
    requires Pub(Ingress, r) in Next(w, s, l).stream && Pub(Ingress, r) !in s.stream
    ensures Msg(Ingress, r, MAX_DELIVER) in Next(w, s, l).pending
  {
    StreamAfter(w, s, l);
    if l.Deliver? {
      DeliverEmitsRoot(w, s, l.m, l.a, Pub(Ingress, r));
    } else {
      ArrivalsMember(Emitted(w, s, l), Msg(Ingress, r, MAX_DELIVER));
      PendingAfterRequest(w, s, l);
    }
  }

  lemma PendingAfterRequest(w: World, s: State, l: Label)
    requires !l.Deliver?
    ensures Next(w, s, l).pending == s.pending + Arrivals(Emitted(w, s, l))
  {
  }

  /** The ledger balances after every run, for every request whose URI was given one content. */
  lemma {:induction false} LedgerBalances(w: World, run: seq<Label>)
    requires IsRun(w, run)
    ensures Sound(w, After(w, run)) && Balanced(w, After(w, run))
  {
    SoundReachable(w, run);
    if run != [] {
      var n := |run| - 1;
      LedgerBalances(w, run[..n]);
      BalancedNext(w, After(w, run[..n]), run[n]);
    }
  }
}
