/** Which searches are answered: exactly those whose route ends at the engine with a vector in hand. */
module Answerability {
  import opened Wrappers
  import opened Events
  import opened Bus
  import opened Blobs
  import opened Environment
  import opened Gateway
  import opened Protocol
  import opened Provenance
  import opened Invariant
  import opened Identity
  import opened Ledger
  import opened Refinement
  import opened Linearizability
  import Chunker

  /** Not routed to the chunker; an image has a blob; and the query has a vector. */
  ghost predicate Answerable(w: World, s: State, r: Root) {
    && Route(r) != TaskChunk
    && (Route(r) == TaskVision ==> r.data.blobURI != "")
    && Pieces(w, s, r) != [] && w.vectorise(Pieces(w, s, r)[0]) != []
  }

  /** A search that is not answerable is never replied to, whatever happens: one that is replied to is not routed to the
      chunker, has a blob if it is an image, and some content uploaded under its URI, the one content if there was only
      one, has a vector. */
  lemma NeverReplied(w: World, run: seq<Label>, r: Root) returns (x: Src)
    requires IsRun(w, run)
    requires Pub(Ingress, r) in After(w, run).stream && !IsIngest(r) && Replied(After(w, run), r.correlationId)
    ensures Route(r) != TaskChunk && (Route(r) == TaskVision ==> r.data.blobURI != "")
    ensures x.root == r && BlobOk(After(w, run), x) && |Texts(w, r, x.blob)| == 1
    ensures w.vectorise(Texts(w, r, x.blob)[0]) != []
    ensures OneVersion(After(w, run), r) ==> Answerable(w, After(w, run), r)
  {
    UniqueReachable(w, run);
    x := ReplyFor(w, After(w, run), r);
    if OneVersion(After(w, run), r) {
      RepliedAnswerable(w, After(w, run), r);
    }
  }

  lemma ReplyFor(w: World, s: State, r: Root) returns (x: Src)
    requires Inv(w, s) && SearchesOk(s)
    requires Pub(Ingress, r) in s.stream && !IsIngest(r) && Replied(s, r.correlationId)
    ensures x.root == r && BlobOk(s, x) && |Texts(w, r, x.blob)| == 1 && w.vectorise(Texts(w, r, x.blob)[0]) != []
    ensures Route(r) != TaskChunk && (Route(r) == TaskVision ==> r.data.blobURI != "")
  {
    x := ReplySource(w, s, r.correlationId);
    SameSearch(s, r, x.root);
    ReplyVector(w, s, x);
  }

  lemma ReplyVector(w: World, s: State, x: Src)
    requires Inv(w, s) && ValidSrc(w, s, x) && x.stage.AtDone? && !IsIngest(x.root)
    ensures BlobOk(s, x) && |Texts(w, x.root, x.blob)| == 1 && w.vectorise(Texts(w, x.root, x.blob)[0]) != []
    ensures Route(x.root) != TaskChunk && (Route(x.root) == TaskVision ==> x.root.data.blobURI != "")
  {
    if Route(x.root) == TaskVision {
      VersionNamed(w, s, (x.root.data.blobURI, x.blob));
    }
  }

  lemma RepliedAnswerable(w: World, s: State, r: Root)
    requires Inv(w, s) && SearchesOk(s) && OneVersion(s, r)
    requires Pub(Ingress, r) in s.stream && !IsIngest(r) && Replied(s, r.correlationId)
    ensures Answerable(w, s, r)
  {
    var x := ReplySource(w, s, r.correlationId);
    SameSearch(s, r, x.root);
    EmbeddedAnswerable(w, s, x);
  }

  lemma ReplySource(w: World, s: State, corr: string) returns (x: Src)
    requires StreamOk(w, s) && Replied(s, corr)
    ensures ValidSrc(w, s, x) && x.stage.AtDone? && !IsIngest(x.root) && x.root.correlationId == corr
  {
    var p :| p in s.stream && p.topic == Reply(corr);
    assert PubOk(w, s, p);
    x :| ReplyOk(w, s, p, x);
  }

  lemma EmbeddedAnswerable(w: World, s: State, x: Src)
    requires Inv(w, s) && OneVersion(s, x.root) && ValidSrc(w, s, x) && x.stage.AtDone? && !IsIngest(x.root)
    ensures Answerable(w, s, x.root)
  {
    SrcContent(w, s, x);
    if Route(x.root) == TaskVision {
      VersionNamed(w, s, (x.root.data.blobURI, x.blob));
    }
  }

  lemma SameSearch(s: State, r: Root, q: Root)
    requires SearchesOk(s) && Pub(Ingress, r) in s.stream && Pub(Ingress, q) in s.stream
    requires !IsIngest(r) && !IsIngest(q) && r.correlationId == q.correlationId
    ensures r == q
  {
    var a, b := Pub(Ingress, r), Pub(Ingress, q);
    assert IsSearchRoot(a.env) && IsSearchRoot(b.env);
  }

  // Runs without faults.

  /** A delivery without faults: everything it asks of the outside succeeds, and its settlement arrives. */
  predicate Faultless(a: Answers) {
    && a.getOk && a.modelOk && !a.crashed && a.settleOk
    && a.up != [] && |a.ids| <= |a.up| && forall i | 0 <= i < |a.up| :: a.up[i]
  }

  predicate FaultlessStep(l: Label) {
    !l.Restart? && (l.Deliver? ==> Faultless(l.a))
  }

  ghost predicate FaultlessRun(run: seq<Label>) {
    forall i | 0 <= i < |run| :: FaultlessStep(run[i])
  }

  /** Everything that was ever uploaded under a URI can still be found under it, or something newer can. */
  ghost predicate Stocked(w: World, s: State) {
    forall v | v in s.hist.versions :: Download(w.backend, s.blobs, v.0).Some?
  }

  lemma StockedUpload(b: Backend, objects: Objects, t: string, u: Upload, t': string, f': string)
    requires Download(b, objects, Uri(b, t', f')).Some? || Uri(b, t', f') == Uri(b, t, u.filename)
    ensures Download(b, Uploaded(b, objects, t, u.filename, u.content), Uri(b, t', f')).Some?
  {
    DownloadAfterUpload(b, objects, t, u.filename, u.content, t', f');
  }

  lemma StockedNext(w: World, s: State, l: Label)
    requires Inv(w, s) && Stocked(w, s) && Enabled(w, s, l) && !l.Restart?
    ensures Stocked(w, Next(w, s, l))
  {
    var s' := Next(w, s, l);
    var (t, us) := UploadsOf(w, l);
    VersionsAfter(w, s, l);
    InvNext(w, s, l);
    OneUpload(w, l);
    forall v | v in s'.hist.versions ensures Download(w.backend, s'.blobs, v.0).Some? {
      if v !in s.hist.versions {
        OneNewVersion(w.backend, t, us, v);
      }
      if us != [] {
        var t', f' :| v.0 == Uri(w.backend, t', f');
        assert us[..0] == [] && s'.blobs == Uploaded(w.backend, s.blobs, t, us[0].filename, us[0].content);
        StockedUpload(w.backend, s.blobs, t, us[0], t', f');
      }
    }
  }

  /** Without faults the only losses are pieces without a vector and requests that name no blob where one is needed. */
  ghost predicate OnlyInherent(w: World, s: State) {
    forall e | e in s.hist.losses :: e.EmptyVector? || exists x :: BloblessAt(w, s, e, x)
  }

  ghost predicate BloblessAt(w: World, s: State, e: Loss, x: Src) {
    && e.Exhausted? && ValidSrc(w, s, x) && x.stage.AtRoot? && e.env == x.root
    && Route(x.root) != TaskEmbed && x.root.data.blobURI == ""
  }

  /** Without faults, a handler refuses a message only for want of its blob, and drops only empty vectors. */
  lemma FaultlessHandler(w: World, s: State, m: Msg, a: Answers, x: Src)
    requires ValidSrc(w, s, x) && m.env == EnvOf(w, x) && TopicOk(m.topic, x) && Faultless(a)
    requires m.topic.TaskChunk? ==> |a.ids| == |Named(w, s, m, a)|
    ensures var r := React(w, s, m, a);
            && (forall e | e in r.losses :: e.EmptyVector?)
            && (r.settle == Nacked ==>
                  x.stage.AtRoot? && Route(x.root) != TaskEmbed
                  && Download(w.backend, s.blobs, x.root.data.blobURI) == None)
  {
    match m.topic
    case Ingress => ClassifyAt(w, x);
    case TaskEmbed => EmbedAt(w, s, x, a);
    case TaskVision => VisionAt(w, s, x, a);
    case TaskChunk => FaultlessChunker(w, s, m, a);
    case TaskEngine => EngineAt(w, s, x, a);
  }

  lemma FaultlessChunker(w: World, s: State, m: Msg, a: Answers)
    requires m.topic.TaskChunk? && Faultless(a) && |a.ids| == |Named(w, s, m, a)|
    ensures Chunker.React(w.backend, s.blobs, m.env, a).losses == {}
  {
  }

  lemma NewFaultlessLoss(w: World, s: State, m: Msg, a: Answers, e: Loss)
    requires Faultless(a) && e in Next(w, s, Deliver(m, a)).hist.losses && e !in s.hist.losses
    ensures e in React(w, s, m, a).losses || (e == Exhausted(m.env) && React(w, s, m, a).settle == Nacked)
  {
  }

  lemma RepliesAcked(w: World, s: State, m: Msg, a: Answers)
    requires m.topic.Reply?
    ensures React(w, s, m, a) == Reaction([], Acked, {})
  {
  }

  lemma InStock(w: World, s: State, r: Root)
    requires Inv(w, s) && Stocked(w, s) && Pub(Ingress, r) in s.stream && r.data.blobURI != ""
    ensures Download(w.backend, s.blobs, r.data.blobURI).Some?
  {
    assert RootUriOk(w, s, Pub(Ingress, r).env);
    var c :| (r.data.blobURI, c) in s.hist.versions;
    var v := (r.data.blobURI, c);
    assert Download(w.backend, s.blobs, v.0).Some?;
  }

  lemma LossInherent(w: World, s: State, m: Msg, a: Answers, e: Loss) returns (x: Src)
    requires Inv(w, s) && Stocked(w, s) && Enabled(w, s, Deliver(m, a)) && Faultless(a)
    requires e in Next(w, s, Deliver(m, a)).hist.losses && e !in s.hist.losses
    ensures e.EmptyVector? || BloblessAt(w, s, e, x)
  {
    NewFaultlessLoss(w, s, m, a, e);
    if m.topic.Reply? {
      RepliesAcked(w, s, m, a);
      x := *;
    } else {
      x := PlaceOf(w, s, m);
      FaultlessHandler(w, s, m, a, x);
      if !e.EmptyVector? && x.root.data.blobURI != "" {
        InStock(w, s, x.root);
      }
    }
  }

  lemma OnlyInherentNext(w: World, s: State, l: Label)
    requires Inv(w, s) && Stocked(w, s) && OnlyInherent(w, s) && Enabled(w, s, l) && FaultlessStep(l)
    ensures OnlyInherent(w, Next(w, s, l))
  {
    var s' := Next(w, s, l);
    NextGrows(w, s, l);
    forall e | e in s'.hist.losses && !e.EmptyVector? ensures exists x :: BloblessAt(w, s', e, x) {
      var x: Src;
      if e in s.hist.losses {
        x :| BloblessAt(w, s, e, x);
      } else {
        LossOnlyOnDelivery(w, s, l, e);
        x := LossInherent(w, s, l.m, l.a, e);
      }
      SrcKept(w, s, s', x);
      assert BloblessAt(w, s', e, x);
    }
  }

  lemma LossOnlyOnDelivery(w: World, s: State, l: Label, e: Loss)
    requires e in Next(w, s, l).hist.losses && e !in s.hist.losses
    ensures l.Deliver?
  {
  }

  lemma {:induction false} FaultlessReachable(w: World, run: seq<Label>)
    requires IsRun(w, run) && FaultlessRun(run)
    ensures Stocked(w, After(w, run)) && OnlyInherent(w, After(w, run))
  {
    if run != [] {
      var n := |run| - 1;
      assert forall i | 0 <= i < n :: run[..n][i] == run[i];
      FaultlessReachable(w, run[..n]);
      InvReachable(w, run[..n]);
      StockedNext(w, After(w, run[..n]), run[n]);
      OnlyInherentNext(w, After(w, run[..n]), run[n]);
    }
  }

  lemma LostMeansNotAnswerable(w: World, s: State, r: Root)
    requires Inv(w, s) && OneVersion(s, r) && OnlyInherent(w, s) && LossesOk(w, s) && Lost(w, s, r, 0, None)
    ensures !Answerable(w, s, r)
  {
    var e, y :| e in s.hist.losses && CarriedBy(w, s, y, e.env, r, 0, None);
    if e.EmptyVector? {
      EmptyNotAnswerable(w, s, r, e, y);
    } else {
      var x :| BloblessAt(w, s, e, x);
      BloblessRoot(w, s, e, x, y);
      NoContent(w, s, r);
    }
  }

  lemma EmptyNotAnswerable(w: World, s: State, r: Root, e: Loss, y: Src)
    requires OneVersion(s, r) && LossesOk(w, s) && e in s.hist.losses && e.EmptyVector?
    requires CarriedBy(w, s, y, e.env, r, 0, None)
    ensures !Answerable(w, s, r)
  {
    if Pieces(w, s, r) != [] {
      EmptyPieceSkipped(w, s, r, 0, None, e, y);
    }
  }

  lemma BloblessRoot(w: World, s: State, e: Loss, x: Src, y: Src)
    requires BloblessAt(w, s, e, x) && e.env == EnvOf(w, y)
    ensures Route(y.root) != TaskEmbed && y.root.data.blobURI == ""
  {
  }

  lemma NoContent(w: World, s: State, r: Root)
    requires Inv(w, s) && Route(r) != TaskEmbed && r.data.blobURI == ""
    ensures Pieces(w, s, r) == []
  {
    forall c ensures ("", c) !in s.hist.versions {
      if ("", c) in s.hist.versions {
        VersionNamed(w, s, ("", c));
      }
    }
  }

  /** In a run without faults, once nothing is in flight, a search has been replied to if and only if it is
      answerable. */
  lemma RepliedIffAnswerable(w: World, run: seq<Label>, r: Root)
    requires IsRun(w, run) && FaultlessRun(run) && OneVersion(After(w, run), r)
    requires Pub(Ingress, r) in After(w, run).stream && !IsIngest(r)
    requires After(w, run).pending == multiset{}
    ensures Replied(After(w, run), r.correlationId) <==> Answerable(w, After(w, run), r)
  {
    LedgerBalances(w, run);
    LossesReachable(w, run);
    FaultlessReachable(w, run);
    QuietSearch(w, After(w, run), r);
  }

  lemma QuietSearch(w: World, s: State, r: Root)
    requires Sound(w, s) && Balanced(w, s) && OnlyInherent(w, s) && LossesOk(w, s) && OneVersion(s, r)
    requires Pub(Ingress, r) in s.stream && !IsIngest(r) && s.pending == multiset{}
    ensures Replied(s, r.correlationId) <==> Answerable(w, s, r)
  {
    if Replied(s, r.correlationId) {
      RepliedAnswerable(w, s, r);
    } else if Answerable(w, s, r) {
      assert Accounted(w, s, r, 0, None);
      LostMeansNotAnswerable(w, s, r);
    }
  }

  // The last hop: from the reply on the bus to the caller.

  ghost predicate Coming(s: State, c: string) {
    exists m :: m in s.pending && m.topic == Reply(c) && m.env.correlationId == c
  }

  /** The reply of a search that waits with nothing in its channel, once it is on the stream, is still to be handled. */
  ghost predicate RepliesComing(s: State) {
    forall c | c in s.calls && s.calls[c].inbox.None? && Replied(s, c) :: Coming(s, c)
  }

  lemma RepliedUsed(w: World, s: State, c: string)
    requires Inv(w, s) && SearchesOk(s) && Replied(s, c)
    ensures c in s.hist.used
  {
    var x := ReplySource(w, s, c);
    var p := Pub(Ingress, x.root);
    assert IsSearchRoot(p.env) && p in s.stream;
  }

  lemma NewReplyComing(w: World, s: State, l: Label, c: string)
    requires Inv(w, s) && Enabled(w, s, l) && !Replied(s, c) && Replied(Next(w, s, l), c)
    ensures Coming(Next(w, s, l), c)
  {
    StreamAfter(w, s, l);
    var p :| p in Next(w, s, l).stream && p.topic == Reply(c);
    FreshReply(w, s, l, p);
    var x := ReplyComputedNow(w, s, l, p);
    EmittedPending(w, s, l.m, l.a, p);
    assert Msg(p.topic, p.env, MAX_DELIVER).topic == Reply(c);
  }

  lemma OldReplyComing(w: World, s: State, l: Label, c: string)
    requires Inv(w, s) && Enabled(w, s, l) && FaultlessStep(l) && Coming(s, c) && c in s.calls
    requires c in Next(w, s, l).calls && Next(w, s, l).calls[c].inbox.None?
    ensures Coming(Next(w, s, l), c)
  {
    var m :| m in s.pending && m.topic == Reply(c) && m.env.correlationId == c;
    if l.Deliver? && l.m == m {
      CallsOfDelivery(w, s, m, l.a);
    } else {
      StillPending(w, s, l, m);
    }
  }

  lemma NewCallFresh(w: World, s: State, l: Label, c: string)
    requires Enabled(w, s, l) && c in Next(w, s, l).calls && c !in s.calls
    ensures l.Search? && l.corr == c && c !in s.hist.used
  {
    CallsOfNext(w, s, l);
    CallChange(w, s.calls, l, c);
  }

  lemma SearchNoReply(w: World, s: State, l: Label, c: string)
    requires l.Search? && Inv(w, s) && Enabled(w, s, l) && !Replied(s, c)
    ensures !Replied(Next(w, s, l), c)
  {
    StreamAfter(w, s, l);
    forall p | p in Next(w, s, l).stream ensures p.topic != Reply(c) {
      if p !in s.stream {
        RequestEmits(w, s, l, p);
      }
    }
  }

  lemma RepliesComingNext(w: World, s: State, l: Label)
    requires Inv(w, s) && SearchesOk(s) && RepliesComing(s) && Enabled(w, s, l) && FaultlessStep(l)
    ensures RepliesComing(Next(w, s, l))
  {
    var s' := Next(w, s, l);
    forall c | c in s'.calls && s'.calls[c].inbox.None? && Replied(s', c) ensures Coming(s', c) {
      ComingNext(w, s, l, c);
    }
  }

  lemma StillEmpty(w: World, s: State, l: Label, c: string)
    requires c in s.calls && c in Next(w, s, l).calls && Next(w, s, l).calls[c].inbox.None? && Enabled(w, s, l)
    ensures s.calls[c].inbox.None?
  {
    CallsOfNext(w, s, l);
    CallChange(w, s.calls, l, c);
  }

  lemma ComingNext(w: World, s: State, l: Label, c: string)
    requires Inv(w, s) && SearchesOk(s) && RepliesComing(s) && Enabled(w, s, l) && FaultlessStep(l)
    requires var s' := Next(w, s, l); c in s'.calls && s'.calls[c].inbox.None? && Replied(s', c)
    ensures Coming(Next(w, s, l), c)
  {
    if c !in s.calls {
      NewCallFresh(w, s, l, c);
      if Replied(s, c) {
        RepliedUsed(w, s, c);
      } else {
        SearchNoReply(w, s, l, c);
      }
    } else if Replied(s, c) {
      StillEmpty(w, s, l, c);
      OldReplyComing(w, s, l, c);
    } else {
      NewReplyComing(w, s, l, c);
    }
  }

  lemma {:induction false} RepliesComingReachable(w: World, run: seq<Label>)
    requires IsRun(w, run) && FaultlessRun(run)
    ensures RepliesComing(After(w, run))
  {
    if run != [] {
      var n := |run| - 1;
      assert forall i | 0 <= i < n :: run[..n][i] == run[i];
      RepliesComingReachable(w, run[..n]);
      UniqueReachable(w, run[..n]);
      RepliesComingNext(w, After(w, run[..n]), run[n]);
    }
  }

  ghost predicate Returned(run: seq<Label>, corr: string) {
    exists n :: 0 <= n < |run| && run[n].Return? && run[n].corr == corr
  }

  /** The search has its answer: it returned with one, or holds it in its channel. */
  ghost predicate Answered(w: World, run: seq<Label>, corr: string) {
    Returned(run, corr) || (corr in After(w, run).calls && After(w, run).calls[corr].inbox.Some?)
  }

  ghost predicate NeverTimedOut(run: seq<Label>, corr: string) {
    forall n | 0 <= n < |run| && run[n].Timeout? :: run[n].corr != corr
  }

  /** A search that was announced waits until it returns or times out. */
  lemma CallLivesNext(w: World, s: State, l: Label, r: Root)
    requires Inv(w, s) && Enabled(w, s, l) && FaultlessStep(l) && !IsIngest(r)
    requires Pub(Ingress, r) in Next(w, s, l).stream && (Pub(Ingress, r) in s.stream ==> r.correlationId in s.calls)
    requires !(l.Timeout? && l.corr == r.correlationId) && !(l.Return? && l.corr == r.correlationId)
    ensures r.correlationId in Next(w, s, l).calls
  {
    CallsOfNext(w, s, l);
    if Pub(Ingress, r) in s.stream {
      CallStays(w, s.calls, l, r.correlationId);
    } else {
      StreamAfter(w, s, l);
      AnnouncedNow(w, s, l, r);
      CallOpened(w, s, l);
    }
  }

  lemma CallStays(w: World, calls: Calls, l: Label, c: string)
    requires c in calls && !l.Restart? && !(l.Timeout? && l.corr == c) && !(l.Return? && l.corr == c)
    ensures c in CallsNext(w, calls, l)
  {
  }

  lemma CallOpened(w: World, s: State, l: Label)
    requires l.Search? && Emitted(w, s, l) != []
    ensures l.corr in CallsNext(w, s.calls, l)
  {
  }

  lemma {:induction false} CallLives(w: World, run: seq<Label>, r: Root)
    requires IsRun(w, run) && FaultlessRun(run) && NeverTimedOut(run, r.correlationId)
    requires Pub(Ingress, r) in After(w, run).stream && !IsIngest(r)
    ensures r.correlationId in After(w, run).calls || Returned(run, r.correlationId)
  {
    if run != [] {
      var n := |run| - 1;
      assert forall i | 0 <= i < n :: run[..n][i] == run[i];
      InvReachable(w, run[..n]);
      if Pub(Ingress, r) in After(w, run[..n]).stream {
        CallLives(w, run[..n], r);
      }
      if !Returned(run, r.correlationId) {
        NotReturnedBefore(run, r.correlationId);
        CallLivesNext(w, After(w, run[..n]), run[n], r);
      }
    }
  }

  lemma NotReturnedBefore(run: seq<Label>, corr: string)
    requires run != [] && !Returned(run, corr)
    ensures !Returned(run[..|run| - 1], corr)
    ensures !(run[|run| - 1].Return? && run[|run| - 1].corr == corr)
  {
    var init := run[..|run| - 1];
    assert forall i | 0 <= i < |init| :: init[i] == run[i];
  }

  lemma ReturnedReplied(w: World, run: seq<Label>, corr: string)
    requires IsRun(w, run) && Returned(run, corr)
    ensures Replied(After(w, run), corr)
  {
    var n :| 0 <= n < |run| && run[n].Return? && run[n].corr == corr;
    var p := ReturnedReply(w, run, n);
    RunGrows(w, run, n, |run|);
    assert run[..|run|] == run;
    assert p in After(w, run).stream;
  }

  lemma HeldReplied(w: World, run: seq<Label>, corr: string)
    requires IsRun(w, run) && corr in After(w, run).calls && After(w, run).calls[corr].inbox.Some?
    ensures Replied(After(w, run), corr)
  {
    CallsReachable(w, run);
    var s := After(w, run);
    assert CallOk(s, corr, s.calls[corr]);
    assert Pub(Reply(corr), s.calls[corr].inbox.value).topic == Reply(corr);
  }

  /** In a run without faults, once nothing is in flight, a search that was not given up has its answer if and only if
      it is answerable. */
  lemma AnsweredIffAnswerable(w: World, run: seq<Label>, r: Root)
    requires IsRun(w, run) && FaultlessRun(run) && OneVersion(After(w, run), r)
    requires NeverTimedOut(run, r.correlationId)
    requires Pub(Ingress, r) in After(w, run).stream && !IsIngest(r)
    requires After(w, run).pending == multiset{}
    ensures Answered(w, run, r.correlationId) <==> Answerable(w, After(w, run), r)
  {
    var corr := r.correlationId;
    RepliedIffAnswerable(w, run, r);
    if Answered(w, run, corr) {
      if Returned(run, corr) {
        ReturnedReplied(w, run, corr);
      } else {
        HeldReplied(w, run, corr);
      }
    } else {
      CallLives(w, run, r);
      RepliesComingReachable(w, run);
      if Replied(After(w, run), corr) {
        StillToCome(After(w, run), corr);
      }
    }
  }

  lemma StillToCome(s: State, c: string)
    requires RepliesComing(s) && Replied(s, c) && c in s.calls && s.calls[c].inbox.None?
    ensures s.pending != multiset{}
  {
    assert Coming(s, c);
  }
}
