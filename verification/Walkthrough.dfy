/** Runs that meet the hypotheses of the results about runs: a large text that is indexed to the end, a search that
    returns, and a chunk message delivered once too often, after which the index is not the sequential one. */
module Walkthrough {
  import opened Wrappers
  import opened Events
  import opened Text
  import opened Windows
  import opened Bus
  import opened Environment
  import opened Gateway
  import opened Protocol
  import opened Provenance
  import opened Invariant
  import opened Identity
  import opened Ledger
  import opened Refinement
  import opened Duplication
  import opened Linearizability
  import opened Answerability
  import opened Termination
  import opened Completion
  import opened Echoes
  import opened Consequences
  import Blobs
  import Chunker

  /** The model has a vector for every text. */
  ghost predicate AlwaysVectors(w: World) {
    forall t :: w.vectorise(t) != []
  }

  // What a faultless continuation leaves alone.

  ghost predicate NoBlobless(s: State) {
    forall r: Root | Pub(Ingress, r) in s.stream :: Route(r) == TaskEmbed || r.data.blobURI != ""
  }

  /** Nothing went wrong so far, and nothing that was accepted must go wrong. */
  ghost predicate Healthy(w: World, s: State) {
    && Inv(w, s) && Stocked(w, s) && OnlyInherent(w, s) && LossesOk(w, s) && NoBlobless(s)
    && s.hist.wiped == {}
  }

  lemma NoBloblessNext(w: World, s: State, l: Label)
    requires Inv(w, s) && NoBlobless(s) && Enabled(w, s, l) && (l.Deliver? || l.Return?)
    ensures NoBlobless(Next(w, s, l))
  {
    StreamAfter(w, s, l);
    forall r: Root | Pub(Ingress, r) in Next(w, s, l).stream ensures Route(r) == TaskEmbed || r.data.blobURI != "" {
      if Pub(Ingress, r) !in s.stream {
        DeliverEmitsRoot(w, s, l.m, l.a, Pub(Ingress, r));
      }
    }
  }

  lemma WipedKeptAsIs(w: World, s: State, l: Label)
    requires !l.Restart?
    ensures Next(w, s, l).hist.wiped == s.hist.wiped
  {
    if l.Deliver? {
      WipedByDelivery(w, s, l.m, l.a);
    }
  }

  lemma WipedByDelivery(w: World, s: State, m: Msg, a: Answers)
    ensures Next(w, s, Deliver(m, a)).hist.wiped == s.hist.wiped
  {
  }

  lemma HealthyNext(w: World, s: State, l: Label)
    requires Healthy(w, s) && Enabled(w, s, l) && FaultlessStep(l) && (l.Deliver? || l.Return?)
    ensures Healthy(w, Next(w, s, l)) && Next(w, s, l).hist.versions == s.hist.versions
  {
    InvNext(w, s, l);
    StockedNext(w, s, l);
    OnlyInherentNext(w, s, l);
    LossesOkNext(w, s, l);
    NoBloblessNext(w, s, l);
    WipedKeptAsIs(w, s, l);
    VersionsUntouched(w, s, l);
  }

  lemma HealthyStep(w: World, run: seq<Label>, l: Label)
    requires IsRun(w, run + [l]) && Healthy(w, After(w, run)) && FaultlessStep(l) && (l.Deliver? || l.Return?)
    ensures IsRun(w, run) && Healthy(w, After(w, run + [l]))
    ensures After(w, run + [l]).hist.versions == After(w, run).hist.versions
  {
    assert (run + [l])[..|run|] == run;
    HealthyNext(w, After(w, run), l);
  }

  lemma {:induction false} HealthyOn(w: World, run: seq<Label>, more: seq<Label>)
    requires IsRun(w, run + more) && FaultlessMore(more) && Healthy(w, After(w, run))
    ensures Healthy(w, After(w, run + more)) && After(w, run + more).hist.versions == After(w, run).hist.versions
  {
    if more == [] {
      NoneAdded(run);
    } else {
      var init, l := more[..|more| - 1], more[|more| - 1];
      LastSplit(run, more);
      InitRuns(w, run + init, l);
      HealthyOn(w, run, init);
      HealthyStep(w, run + init, l);
    }
  }

  lemma NoneAdded(run: seq<Label>)
    ensures run + [] == run
  {
  }

  lemma LastSplit(run: seq<Label>, more: seq<Label>)
    requires more != []
    ensures run + more == (run + more[..|more| - 1]) + [more[|more| - 1]]
  {
  }

  lemma InitRuns(w: World, run: seq<Label>, l: Label)
    requires IsRun(w, run + [l])
    ensures IsRun(w, run)
  {
    assert (run + [l])[..|run|] == run;
  }

  lemma NoEmptyLoss(w: World, s: State, e: Loss, x: Src)
    requires AlwaysVectors(w)
    ensures !EmptyFor(w, s, e, x)
  {
    assert w.vectorise(TextOf(w, Embedded(x))) != [];
  }

  lemma NoBloblessLoss(w: World, s: State, e: Loss, x: Src)
    requires NoBlobless(s)
    ensures !BloblessAt(w, s, e, x)
  {
    assert Pub(Ingress, x.root) in s.stream ==> Route(x.root) == TaskEmbed || x.root.data.blobURI != "";
  }

  lemma HealthyLosesNothing(w: World, s: State)
    requires Healthy(w, s) && AlwaysVectors(w)
    ensures s.hist.losses == {}
  {
    forall e, x ensures !EmptyFor(w, s, e, x) && !BloblessAt(w, s, e, x) {
      NoEmptyLoss(w, s, e, x);
      NoBloblessLoss(w, s, e, x);
    }
  }

  /** From a healthy state the pipeline finishes and ends quiet. */
  lemma FinishesQuiet(w: World, run: seq<Label>, ids: seq<string>) returns (more: seq<Label>)
    requires IsRun(w, run) && AlwaysVectors(w) && Healthy(w, After(w, run)) && Supply(w, After(w, run), ids)
    ensures Finishes(w, run, more) && Quiet(After(w, run + more)) && Healthy(w, After(w, run + more))
    ensures After(w, run + more).hist.versions == After(w, run).hist.versions
    ensures DrawsFrom(After(w, run), After(w, run + more), ids)
  {
    more := Completes(w, run, ids);
    HealthyOn(w, run, more);
    HealthyLosesNothing(w, After(w, run + more));
  }

  // Opening a run with one request.

  predicate NamesGood(n: Names) {
    |n.docId| == UUID_LENGTH && |n.corr| == UUID_LENGTH && n.docId != n.corr
  }

  /** UUIDs that are good once those in `drawn` have been drawn. */
  ghost predicate Uuids(ids: seq<string>, drawn: set<string>) {
    && (forall i | 0 <= i < |ids| :: |ids[i]| == UUID_LENGTH && ids[i] !in drawn)
    && (forall i, j | 0 <= i < j < |ids| :: ids[i] != ids[j])
  }

  lemma FreshFrom(s: State, ids: seq<string>)
    requires Uuids(ids, s.hist.used)
    ensures DistinctFresh(s, ids)
  {
  }

  /** A request that can be carried out: it needs no blob, or has one. */
  predicate HasItsBlob(r: Root) {
    Route(r) == TaskEmbed || r.data.blobURI != ""
  }

  lemma NoBloblessRequest(w: World, s: State, l: Label, r: Root)
    requires NoBlobless(s) && Emitted(w, s, l) == [Pub(Ingress, r)] && HasItsBlob(r)
    ensures NoBlobless(Next(w, s, l))
  {
    StreamAfter(w, s, l);
  }

  lemma HealthyRequest(w: World, s: State, l: Label, r: Root)
    requires Healthy(w, s) && Enabled(w, s, l) && (l.Ingest? || l.Search?)
    requires Emitted(w, s, l) == [Pub(Ingress, r)] && HasItsBlob(r)
    ensures Healthy(w, Next(w, s, l))
  {
    InvNext(w, s, l);
    StockedNext(w, s, l);
    OnlyInherentNext(w, s, l);
    LossesOkNext(w, s, l);
    NoBloblessRequest(w, s, l, r);
    WipedKeptAsIs(w, s, l);
  }

  lemma Announced(w: World, s: State, l: Label, r: Root)
    requires !l.Deliver? && Emitted(w, s, l) == [Pub(Ingress, r)]
    ensures Next(w, s, l).pending == s.pending + multiset{Msg(Ingress, r, MAX_DELIVER)}
    ensures Pub(Ingress, r) in Next(w, s, l).stream
  {
    PendingAfterRequest(w, s, l);
    ArrivalsOne(Pub(Ingress, r));
    StreamAfter(w, s, l);
  }

  /** One more request, when nothing is in flight. */
  lemma Opening(w: World, run: seq<Label>, l: Label, r: Root)
    requires IsRun(w, run) && Healthy(w, After(w, run)) && After(w, run).pending == multiset{}
    requires Enabled(w, After(w, run), l) && (l.Ingest? || l.Search?)
    requires Emitted(w, After(w, run), l) == [Pub(Ingress, r)] && HasItsBlob(r)
    ensures IsRun(w, run + [l]) && After(w, run + [l]) == Next(w, After(w, run), l) && Healthy(w, After(w, run + [l]))
    ensures Pub(Ingress, r) in After(w, run + [l]).stream
    ensures After(w, run + [l]).pending == multiset{Msg(Ingress, r, MAX_DELIVER)}
  {
    RunExtends(w, run, l);
    Announced(w, After(w, run), l, r);
    HealthyRequest(w, After(w, run), l, r);
  }

  lemma HealthyStart(w: World)
    ensures IsRun(w, []) && After(w, []) == INIT && Healthy(w, INIT) && INIT.pending == multiset{}
  {
  }

  lemma SupplyAtStart(w: World, s: State, r: Root, ids: seq<string>)
    requires s.pending == multiset{Msg(Ingress, r, MAX_DELIVER)} && DistinctFresh(s, ids)
    requires Route(r) == TaskChunk ==> |Chunker.Texts(w.backend, s.blobs, r)| <= |ids|
    ensures Supply(w, s, ids)
  {
    var f, m := Wants(w.backend, s.blobs), Msg(Ingress, r, MAX_DELIVER);
    ClassifyAt(w, Src(AtRoot, r, "", 0, ""));
    TotalRemove(f, s.pending, m);
    assert s.pending - multiset{m} == multiset{};
  }

  // An accepted request, to the end.

  /** One more request, carried out until nothing is in flight. */
  lemma RequestFinishes(w: World, run: seq<Label>, l: Label, r: Root, ids: seq<string>) returns (more: seq<Label>)
    requires IsRun(w, run) && Healthy(w, After(w, run)) && After(w, run).pending == multiset{} && AlwaysVectors(w)
    requires Enabled(w, After(w, run), l) && (l.Ingest? || l.Search?)
    requires Emitted(w, After(w, run), l) == [Pub(Ingress, r)] && HasItsBlob(r)
    requires var s := Next(w, After(w, run), l);
             && DistinctFresh(s, ids)
             && (Route(r) == TaskChunk ==> |Chunker.Texts(w.backend, s.blobs, r)| <= |ids|)
    ensures var s, f := Next(w, After(w, run), l), After(w, run + [l] + more);
            && IsRun(w, run + [l] + more) && FaultlessMore(more) && Quiet(f) && Healthy(w, f)
            && f.hist.versions == s.hist.versions && DrawsFrom(s, f, ids) && Pub(Ingress, r) in f.stream
  {
    Opening(w, run, l, r);
    SupplyAtStart(w, After(w, run + [l]), r, ids);
    more := FinishesQuiet(w, run + [l], ids);
    ExtensionGrows(w, run + [l], more);
  }

  lemma AcceptedFinishes(w: World, l: Label, r: Root, v: (string, string), ids: seq<string>)
    returns (more: seq<Label>)
    requires AlwaysVectors(w) && Enabled(w, INIT, l) && l.Ingest? && Emitted(w, INIT, l) == [Pub(Ingress, r)]
    requires r.data.blobURI != "" && Next(w, INIT, l).hist.versions == {v}
    requires Uuids(ids, Next(w, INIT, l).hist.used)
    requires |Chunker.Texts(w.backend, Next(w, INIT, l).blobs, r)| <= |ids|
    ensures IsRun(w, [l] + more) && FaultlessMore(more) && Quiet(After(w, [l] + more))
    ensures After(w, [l] + more).hist.versions == {v} && Pub(Ingress, r) in After(w, [l] + more).stream
  {
    HealthyStart(w);
    FreshFrom(Next(w, INIT, l), ids);
    more := RequestFinishes(w, [], l, r, ids);
    Singleton(l, more);
  }

  lemma Singleton(l: Label, more: seq<Label>)
    ensures [] + [l] == [l] && [] + [l] + more == [l] + more
  {
  }

  lemma FaultlessEchoFree(l: Label, more: seq<Label>)
    requires !l.Deliver? && FaultlessMore(more)
    ensures EchoFree([l] + more)
  {
  }

  lemma OneVersionSingle(s: State, v: (string, string))
    requires s.hist.versions == {v}
    ensures OneVersionEach(s)
  {
  }

  lemma FinishedIndexed(w: World, l: Label, more: seq<Label>, v: (string, string))
    requires IsRun(w, [l] + more) && !l.Deliver? && FaultlessMore(more) && Quiet(After(w, [l] + more))
    requires After(w, [l] + more).hist.versions == {v}
    ensures forall uri :: OneVersionOf(After(w, [l] + more), uri)
    ensures var s := After(w, [l] + more);
            s.store == IndexAll(w, Accepted(w, s, s.stream), NamingOf(w, s.hist.names))
  {
    FaultlessEchoFree(l, more);
    OneVersionSingle(After(w, [l] + more), v);
    RefinesWithoutEchoes(w, [l] + more);
  }

  // A text too large for the bus, to the end.

  predicate LargeRequest(q: IngestRequest, n: Names) {
    q.tenant != "" && Utf8Size(q.text) > 65536 && NamesGood(n)
  }

  lemma LargeAnnounced(w: World, q: IngestRequest, n: Names) returns (r: Root)
    requires LargeRequest(q, n)
    ensures var l := Ingest(q, n, true, true); var s := Next(w, INIT, l);
            && Enabled(w, INIT, l) && Emitted(w, INIT, l) == [Pub(Ingress, r)] && Route(r) == TaskChunk
            && r.data.blobURI == Blobs.Uri(w.backend, q.tenant, TextFilename(n)) != ""
            && s.hist.versions == {(r.data.blobURI, q.text)} && s.hist.used == {n.docId, n.corr}
            && Chunker.Texts(w.backend, s.blobs, r) == Published(q.text)
  {
    var l := Ingest(q, n, true, true);
    var us := [Upload(TextFilename(n), q.text)];
    OneUploadAndBoundedText(w.backend, q, n, true, true);
    LargeTextEffect(w, l);
    r := Emitted(w, INIT, l)[0].env;
    RequestEmits(w, INIT, l, Pub(Ingress, r));
    Blobs.KeyOfUri(w.backend, q.tenant, TextFilename(n));
    assert us[..0] == [] && AllUploaded(w.backend, map[], q.tenant, us) ==
           Blobs.Uploaded(w.backend, map[], q.tenant, TextFilename(n), q.text);
    Blobs.DownloadAfterUpload(w.backend, map[], q.tenant, TextFilename(n), q.text, q.tenant, TextFilename(n));
    VersionsAfter(w, INIT, l);
  }

  /** For every text too large for the bus there is a run without faults that accepts it and ends quiet, with the index
      the sequential indexer builds. */
  lemma LargeTextFinishes(w: World, q: IngestRequest, n: Names, ids: seq<string>) returns (run: seq<Label>)
    requires AlwaysVectors(w) && LargeRequest(q, n)
    requires Uuids(ids, {n.docId, n.corr}) && |Published(q.text)| <= |ids|
    ensures IsRun(w, run) && Quiet(After(w, run)) && AcceptsLargeText(w, run, 0) && run[0].q == q && run[0].n == n
    ensures forall uri :: OneVersionOf(After(w, run), uri)
    ensures var s := After(w, run); s.store == IndexAll(w, Accepted(w, s, s.stream), NamingOf(w, s.hist.names))
  {
    var l := Ingest(q, n, true, true);
    var r := LargeAnnounced(w, q, n);
    var more := AcceptedFinishes(w, l, r, (r.data.blobURI, q.text), ids);
    LargeTextAccepted(w, q, n, more);
    FinishedIndexed(w, l, more, (r.data.blobURI, q.text));
    run := [l] + more;
  }

  lemma LargeTextAccepted(w: World, q: IngestRequest, n: Names, more: seq<Label>)
    requires LargeRequest(q, n)
    ensures var run := [Ingest(q, n, true, true)] + more;
            AcceptsLargeText(w, run, 0) && run[0].q == q && run[0].n == n
  {
    var r := LargeAnnounced(w, q, n);
    assert ([Ingest(q, n, true, true)] + more)[..0] == [];
  }

  // A search that returns.

  lemma FaultlessAll(run: seq<Label>, l: Label, more: seq<Label>)
    requires FaultlessRun(run) && FaultlessStep(l) && FaultlessMore(more)
    ensures FaultlessRun(run + [l] + more)
  {
  }

  /** Nobody gives up. */
  ghost predicate Patient(run: seq<Label>) {
    forall i | 0 <= i < |run| :: !run[i].Timeout?
  }

  lemma NoTimeouts(run: seq<Label>, l: Label, more: seq<Label>, corr: string)
    requires Patient(run) && !l.Timeout? && FaultlessMore(more)
    ensures Patient(run + [l] + more) && NeverTimedOut(run + [l] + more, corr)
  {
  }

  lemma ReturnsNow(w: World, run: seq<Label>, corr: string) returns (more: seq<Label>)
    requires IsRun(w, run) && corr in After(w, run).calls && After(w, run).calls[corr].inbox.Some?
    ensures FaultlessMore(more) && IsRun(w, run + more) && Returned(run + more, corr)
  {
    var call := After(w, run).calls[corr];
    var l := Return(call.tenant, corr, DecodeSearchCompleted(call.inbox.value.data));
    RunExtends(w, run, l);
    more := [l];
    assert (run + more)[|run|] == l;
  }

  /** The search can be answered, whatever else happens. */
  ghost predicate Promising(w: World, s: State, r: Root) {
    && !IsIngest(r) && HasItsBlob(r) && Route(r) != TaskChunk && OneVersion(s, r) && Pieces(w, s, r) != []
  }

  /** One more search, until it is answered. */
  lemma SearchAnswered(w: World, run: seq<Label>, l: Label, r: Root) returns (more: seq<Label>)
    requires IsRun(w, run) && Healthy(w, After(w, run)) && After(w, run).pending == multiset{} && AlwaysVectors(w)
    requires FaultlessRun(run) && Patient(run)
    requires Enabled(w, After(w, run), l) && l.Search? && Emitted(w, After(w, run), l) == [Pub(Ingress, r)]
    requires r.correlationId == l.corr && Promising(w, Next(w, After(w, run), l), r)
    ensures IsRun(w, run + [l] + more) && FaultlessMore(more) && Answered(w, run + [l] + more, l.corr)
  {
    var s := Next(w, After(w, run), l);
    more := RequestFinishes(w, run, l, r, []);
    FaultlessAll(run, l, more);
    NoTimeouts(run, l, more, l.corr);
    SameAnswer(w, s, After(w, run + [l] + more), r);
    AnsweredIffAnswerable(w, run + [l] + more, r);
  }

  /** One more search, until it returns. */
  lemma SearchFinishes(w: World, run: seq<Label>, l: Label, r: Root) returns (more: seq<Label>)
    requires IsRun(w, run) && Healthy(w, After(w, run)) && After(w, run).pending == multiset{} && AlwaysVectors(w)
    requires FaultlessRun(run) && Patient(run)
    requires Enabled(w, After(w, run), l) && l.Search? && Emitted(w, After(w, run), l) == [Pub(Ingress, r)]
    requires r.correlationId == l.corr && Promising(w, Next(w, After(w, run), l), r)
    ensures IsRun(w, run + [l] + more) && Returned(run + [l] + more, l.corr) && FaultlessRun(run + [l] + more)
  {
    more := SearchAnswered(w, run, l, r);
    if !Returned(run + [l] + more, l.corr) {
      var last := ReturnsNow(w, run + [l] + more, l.corr);
      Regrouped(run + [l], more, last);
      more := more + last;
    }
    FaultlessAll(run, l, more);
  }

  lemma Regrouped(run: seq<Label>, more: seq<Label>, last: seq<Label>)
    ensures run + more + last == run + (more + last)
  {
  }

  lemma SameAnswer(w: World, s: State, s': State, r: Root)
    requires AlwaysVectors(w) && s'.hist.versions == s.hist.versions && Promising(w, s, r)
    ensures OneVersion(s', r) && Answerable(w, s', r)
  {
    assert Content(s', r) == Content(s, r);
  }

  predicate TextRequest(q: SearchRequest) {
    q.tenant != "" && q.file.None? && !("image/" <= q.mime)
  }

  lemma SearchAnnounced(w: World, s: State, q: SearchRequest, corr: string) returns (r: Root)
    requires TextRequest(q) && FreshId(s, corr) && corr !in s.calls
    ensures var l := Search(q, corr, true, true);
            && Enabled(w, s, l) && Emitted(w, s, l) == [Pub(Ingress, r)] && !IsIngest(r)
            && Route(r) == TaskEmbed && r.correlationId == corr
  {
    var l := Search(q, corr, true, true);
    r := Envelope(corr, q.tenant, SearchRequested, "gateway", SearchPayload(q.query, "", q.topK, q.mime));
  }

  /** For every text query there is a run in which its search returns. */
  lemma SearchReturns(w: World, q: SearchRequest, corr: string) returns (run: seq<Label>)
    requires AlwaysVectors(w) && TextRequest(q) && |corr| == UUID_LENGTH
    ensures IsRun(w, run) && Returned(run, corr)
  {
    var l := Search(q, corr, true, true);
    HealthyStart(w);
    var r := SearchAnnounced(w, INIT, q, corr);
    assert Pieces(w, Next(w, INIT, l), r)[0] == DirectText(r);
    var more := SearchFinishes(w, [], l, r);
    run := [] + [l] + more;
  }

  /** A search for an image, which comes with it. */
  predicate ImageRequest(q: SearchRequest) {
    q.tenant != "" && q.file.Some? && q.size > 0 && "image/" <= q.mime
  }

  lemma ImageAnnounced(w: World, s: State, q: SearchRequest, corr: string) returns (r: Root)
    requires ImageRequest(q) && FreshId(s, corr) && corr !in s.calls && s.hist.versions == {}
    ensures var l := Search(q, corr, true, true); var s' := Next(w, s, l);
            && Enabled(w, s, l) && Emitted(w, s, l) == [Pub(Ingress, r)] && !IsIngest(r)
            && Route(r) == TaskVision && r.correlationId == corr && r.data.blobURI != ""
            && s'.hist.versions == {(r.data.blobURI, q.file.value)}
            && OneVersion(s', r) && Pieces(w, s', r) == [w.describe(q.file.value)]
  {
    var l := Search(q, corr, true, true);
    var uri := Blobs.Uri(w.backend, q.tenant, q.filename);
    Blobs.KeyOfUri(w.backend, q.tenant, q.filename);
    r := Envelope(corr, q.tenant, SearchRequested, "gateway", SearchPayload(q.query, uri, q.topK, q.mime));
    VersionsAfter(w, s, l);
    assert (uri, q.file.value) in Next(w, s, l).hist.versions;
  }

  /** For every image there is a run in which the search for it returns. */
  lemma ImageSearchReturns(w: World, q: SearchRequest, corr: string) returns (run: seq<Label>)
    requires AlwaysVectors(w) && ImageRequest(q) && |corr| == UUID_LENGTH
    ensures IsRun(w, run) && Returned(run, corr)
  {
    var l := Search(q, corr, true, true);
    HealthyStart(w);
    var r := ImageAnnounced(w, INIT, q, corr);
    var more := SearchFinishes(w, [], l, r);
    run := [] + [l] + more;
  }

  // A file, to the end.

  /** A document whose file is uploaded. */
  predicate FileRequest(q: IngestRequest, n: Names) {
    && q.tenant != "" && Utf8Size(q.text) <= 65536 && q.file.Some? && q.size > 0 && NamesGood(n)
  }

  lemma FileAnnounced(w: World, q: IngestRequest, n: Names) returns (r: Root)
    requires FileRequest(q, n)
    ensures var l := Ingest(q, n, true, true); var s := Next(w, INIT, l);
            && Enabled(w, INIT, l) && Emitted(w, INIT, l) == [Pub(Ingress, r)] && IsIngest(r)
            && r.data.blobURI == Blobs.Uri(w.backend, q.tenant, q.filename) != "" && r.data.mimeType == q.mime
            && s.hist.versions == {(r.data.blobURI, q.file.value)} && s.hist.used == {n.docId, n.corr}
            && Chunker.Texts(w.backend, s.blobs, r) == Published(q.file.value)
  {
    var l := Ingest(q, n, true, true);
    var us := [Upload(q.filename, q.file.value)];
    FileUploadedIff(w.backend, q, n, true);
    Blobs.KeyOfUri(w.backend, q.tenant, q.filename);
    r := Emitted(w, INIT, l)[0].env;
    RequestEmits(w, INIT, l, Pub(Ingress, r));
    assert us[..0] == [] && AllUploaded(w.backend, map[], q.tenant, us) ==
           Blobs.Uploaded(w.backend, map[], q.tenant, q.filename, q.file.value);
    Blobs.DownloadAfterUpload(w.backend, map[], q.tenant, q.filename, q.file.value, q.tenant, q.filename);
    VersionsAfter(w, INIT, l);
  }

  /** For every document with a file, an image as well as any other, there is a run without faults that accepts it and
      ends quiet, with the index the sequential indexer builds. */
  lemma FileFinishes(w: World, q: IngestRequest, n: Names, ids: seq<string>) returns (run: seq<Label>, r: Root)
    requires AlwaysVectors(w) && FileRequest(q, n)
    requires Uuids(ids, {n.docId, n.corr}) && |Published(q.file.value)| <= |ids|
    ensures IsRun(w, run) && Quiet(After(w, run)) && Pub(Ingress, r) in After(w, run).stream && IsIngest(r)
    ensures r.data.mimeType == q.mime && r.data.blobURI == Blobs.Uri(w.backend, q.tenant, q.filename)
    ensures forall uri :: OneVersionOf(After(w, run), uri)
    ensures var s := After(w, run); s.store == IndexAll(w, Accepted(w, s, s.stream), NamingOf(w, s.hist.names))
  {
    var l := Ingest(q, n, true, true);
    r := FileAnnounced(w, q, n);
    var more := AcceptedFinishes(w, l, r, (r.data.blobURI, q.file.value), ids);
    FinishedIndexed(w, l, more, (r.data.blobURI, q.file.value));
    run := [l] + more;
  }

  // A chunk message delivered once too often.

  predicate TextBlobRequest(q: IngestRequest, n: Names) {
    FileRequest(q, n) && q.mime == "text/plain"
  }

  lemma TextBlobRouted(r: Root)
    requires r.data.blobURI != "" && r.data.mimeType == "text/plain"
    ensures Route(r) == TaskChunk
  {
    PlainTextIsText();
  }

  lemma RoutedReaction(w: World, s: State, r: Root)
    ensures React(w, s, Msg(Ingress, r, MAX_DELIVER), Fine([], [])) == Reaction([Pub(Route(r), r)], Acked, {})
    ensures Named(w, s, Msg(Ingress, r, MAX_DELIVER), Fine([], [])) == []
  {
    ClassifyAt(w, Src(AtRoot, r, "", 0, ""));
  }

  lemma Swapped(m: Msg, n: Msg)
    ensures multiset{m} + multiset{n} - multiset{m} + multiset{} == multiset{n}
  {
  }

  /** The router passes the request on. */
  lemma Routed(w: World, s: State, r: Root)
    requires s.pending == multiset{Msg(Ingress, r, MAX_DELIVER)}
    ensures var l := Deliver(Msg(Ingress, r, MAX_DELIVER), Fine([], []));
            && Enabled(w, s, l) && SentBy(w, s, l) == []
            && Next(w, s, l).pending == multiset{Msg(Route(r), r, MAX_DELIVER)}
  {
    var m := Msg(Ingress, r, MAX_DELIVER);
    RoutedReaction(w, s, r);
    ArrivalsOne(Pub(Route(r), r));
    DeliveredPending(w, s, m, Fine([], []));
    Swapped(m, Msg(Route(r), r, MAX_DELIVER));
  }

  /** All goes well but the settlement. */
  function Unsettled(ids: seq<string>): Answers {
    Fine(ids, []).(settleOk := false)
  }

  lemma WindowsWantNothing(w: World, s: State, m: Msg, a: Answers, x: Src)
    requires ValidSrc(w, s, x) && m.env == EnvOf(w, x) && m.topic == TaskChunk == Target(x)
    ensures Sum(Wants(w.backend, s.blobs), React(w, s, m, a).emits) == 0
  {
    forall p | p in React(w, s, m, a).emits && p.topic != Dlq
      ensures Wants(w.backend, s.blobs)(Msg(p.topic, p.env, MAX_DELIVER)) == 0
    {
      EmitsWantNothing(w, s, m, a, x, p);
    }
    SumZero(Wants(w.backend, s.blobs), React(w, s, m, a).emits);
  }

  lemma UnsettledEnabled(w: World, s: State, r: Root, left: nat, ids: seq<string>, a: Answers)
    requires Msg(TaskChunk, r, left) in s.pending && a.ids == ids && a.getOk && !a.crashed
    requires DistinctFresh(s, ids) && |ids| == |Chunker.Texts(w.backend, s.blobs, r)|
    ensures Enabled(w, s, Deliver(Msg(TaskChunk, r, left), a))
    ensures IsIngest(r) ==> SentBy(w, s, Deliver(Msg(TaskChunk, r, left), a)) ==
                            Sent(w, DocOf(r), Chunker.Texts(w.backend, s.blobs, r))
  {
    var texts := Chunker.Texts(w.backend, s.blobs, r);
    assert texts[..|texts|] == texts;
  }

  lemma UnsettledPending(w: World, s: State, r: Root, ids: seq<string>)
    requires Inv(w, s) && s.pending == multiset{Msg(TaskChunk, r, MAX_DELIVER)}
    ensures var s' := Next(w, s, Deliver(Msg(TaskChunk, r, MAX_DELIVER), Unsettled(ids)));
            var f := Wants(w.backend, s.blobs);
            Msg(TaskChunk, r, 4) in s'.pending && Total(f, s'.pending) == |Chunker.Texts(w.backend, s.blobs, r)|
  {
    var m, a := Msg(TaskChunk, r, MAX_DELIVER), Unsettled(ids);
    var x := PlaceOf(w, s, m);
    DeliveredPending(w, s, m, a);
    WindowsWantNothing(w, s, m, a, x);
    PendingAfterUnsettled(Wants(w.backend, s.blobs), m, React(w, s, m, a).emits);
  }

  /** The chunker sends everything, and the message comes back all the same. */
  lemma SentUnsettled(w: World, s: State, r: Root, ids: seq<string>, more: seq<string>)
    requires Inv(w, s) && s.pending == multiset{Msg(TaskChunk, r, MAX_DELIVER)} && IsIngest(r)
    requires DistinctFresh(s, ids + more) && |ids| == |more| == |Chunker.Texts(w.backend, s.blobs, r)|
    ensures var l := Deliver(Msg(TaskChunk, r, MAX_DELIVER), Unsettled(ids));
            && Enabled(w, s, l) && Msg(TaskChunk, r, 4) in Next(w, s, l).pending
            && SentBy(w, s, l) == Sent(w, DocOf(r), Chunker.Texts(w.backend, s.blobs, r))
            && Supply(w, Next(w, s, l), more)
  {
    var m, a := Msg(TaskChunk, r, MAX_DELIVER), Unsettled(ids);
    FreshPart(s, ids, more);
    UnsettledEnabled(w, s, r, MAX_DELIVER, ids, a);
    UnsettledPending(w, s, r, ids);
    UsedAfter(w, s, m, a);
    VersionsOfDelivery(w, s, m, a);
    FreshRestOf(s, Next(w, s, Deliver(m, a)), ids, more);
  }

  lemma FreshPart(s: State, ids: seq<string>, more: seq<string>)
    requires DistinctFresh(s, ids + more)
    ensures DistinctFresh(s, ids)
  {
    assert forall i | 0 <= i < |ids| :: (ids + more)[i] == ids[i] && FreshId(s, (ids + more)[i]);
  }

  lemma FreshRestOf(s: State, s': State, ids: seq<string>, more: seq<string>)
    requires DistinctFresh(s, ids + more) && s'.hist.used == s.hist.used + (set id | id in ids)
    ensures DistinctFresh(s', more)
  {
    assert (ids + more)[..|ids|] == ids && (ids + more)[|ids|..] == more;
    FreshRest(s, s', ids + more, |ids|);
  }

  lemma Removed(m: Msg, ms: multiset<Msg>)
    ensures multiset{m} + ms - multiset{m} == ms
  {
  }

  lemma PendingAfterUnsettled(f: Msg -> nat, m: Msg, emits: seq<Pub>)
    requires m.left == MAX_DELIVER && Sum(f, emits) == 0 && f(m.(left := 4)) == f(m)
    ensures var after := multiset{m} + Arrivals(emits) - multiset{m} + Redelivery(m, None);
            m.(left := 4) in after && Total(f, after) == f(m)
  {
    Removed(m, Arrivals(emits));
    TotalWithArrivals(f, multiset{}, emits);
    assert multiset{} + Arrivals(emits) == Arrivals(emits);
    TotalAdd(f, Arrivals(emits), m.(left := 4));
  }

  /** The message is delivered again, and all goes well. */
  lemma SentAgain(w: World, s: State, r: Root, ids: seq<string>)
    requires Inv(w, s) && Msg(TaskChunk, r, 4) in s.pending && IsIngest(r)
    requires Supply(w, s, ids) && |ids| == |Chunker.Texts(w.backend, s.blobs, r)|
    ensures var l := Deliver(Msg(TaskChunk, r, 4), Fine(ids, []));
            && Enabled(w, s, l) && SentBy(w, s, l) == Sent(w, DocOf(r), Chunker.Texts(w.backend, s.blobs, r))
            && Supply(w, Next(w, s, l), [])
  {
    UnsettledEnabled(w, s, r, 4, ids, Fine(ids, []));
    AllOf(ids);
    SuppliedAfter(w, s, Msg(TaskChunk, r, 4), Fine(ids, []), ids, |ids|);
  }

  lemma AllOf(ids: seq<string>)
    ensures ids[..|ids|] == ids && ids[|ids|..] == []
  {
  }

  lemma TwiceNotDistinct(xs: seq<Window>)
    requires xs != []
    ensures !Distinct(xs + xs)
  {
    assert (xs + xs)[0] == (xs + xs)[|xs|];
  }

  lemma {:induction false} SendingsGrow(w: World, run: seq<Label>, more: seq<Label>)
    ensures Sendings(w, run) <= Sendings(w, run + more)
  {
    if more == [] {
      assert run + more == run;
    } else {
      var init := more[..|more| - 1];
      SendingsGrow(w, run, init);
      assert (run + more)[..|run + more| - 1] == run + init;
    }
  }

  lemma PrefixNotDistinct(xs: seq<Window>, ys: seq<Window>)
    requires xs <= ys && !Distinct(xs)
    ensures !Distinct(ys)
  {
    var i, j :| 0 <= i < j < |xs| && xs[i] == xs[j];
    assert ys[i] == ys[j];
  }

  lemma Appended(w: World, run: seq<Label>, l: Label)
    requires IsRun(w, run) && Enabled(w, After(w, run), l)
    ensures IsRun(w, run + [l]) && After(w, run + [l]) == Next(w, After(w, run), l)
    ensures Sendings(w, run + [l]) == Sendings(w, run) + SentBy(w, After(w, run), l)
  {
    RunExtends(w, run, l);
    assert (run + [l])[..|run|] == run;
  }

  lemma HealthyUnsettled(w: World, s: State, r: Root, ids: seq<string>)
    requires Healthy(w, s) && Enabled(w, s, Deliver(Msg(TaskChunk, r, MAX_DELIVER), Unsettled(ids)))
    ensures Healthy(w, Next(w, s, Deliver(Msg(TaskChunk, r, MAX_DELIVER), Unsettled(ids))))
  {
    var l := Deliver(Msg(TaskChunk, r, MAX_DELIVER), Unsettled(ids));
    InvNext(w, s, l);
    StockedNext(w, s, l);
    NoBloblessNext(w, s, l);
    WipedKeptAsIs(w, s, l);
    LossesOkNext(w, s, l);
    NoNewLoss(w, s, r, ids);
    InherentKept(w, s, Next(w, s, l));
  }

  lemma NoNewLoss(w: World, s: State, r: Root, ids: seq<string>)
    requires Enabled(w, s, Deliver(Msg(TaskChunk, r, MAX_DELIVER), Unsettled(ids)))
    ensures Next(w, s, Deliver(Msg(TaskChunk, r, MAX_DELIVER), Unsettled(ids))).hist.losses == s.hist.losses
    ensures Grows(s, Next(w, s, Deliver(Msg(TaskChunk, r, MAX_DELIVER), Unsettled(ids))))
  {
    var m, a := Msg(TaskChunk, r, MAX_DELIVER), Unsettled(ids);
    NextGrows(w, s, Deliver(m, a));
    DeliveryLosses(w, s, m, a);
    NothingFailed(w, s, r, ids);
  }

  lemma NothingFailed(w: World, s: State, r: Root, ids: seq<string>)
    requires Enabled(w, s, Deliver(Msg(TaskChunk, r, MAX_DELIVER), Unsettled(ids)))
    ensures React(w, s, Msg(TaskChunk, r, MAX_DELIVER), Unsettled(ids)).losses == {}
  {
  }

  lemma InherentKept(w: World, s: State, s': State)
    requires OnlyInherent(w, s) && Grows(s, s') && s'.hist.losses == s.hist.losses
    ensures OnlyInherent(w, s')
  {
    forall e | e in s'.hist.losses && !e.EmptyVector? ensures exists x :: BloblessAt(w, s', e, x) {
      var x :| BloblessAt(w, s, e, x);
      SrcKept(w, s, s', x);
      assert BloblessAt(w, s', e, x);
    }
  }

  /** Three steps of a run: accepted, routed, and sent by the chunker without its settlement getting through. */
  lemma SentOnce(w: World, q: IngestRequest, n: Names, ids: seq<string>, again: seq<string>)
    returns (run: seq<Label>, r: Root)
    requires TextBlobRequest(q, n) && Uuids(ids + again, {n.docId, n.corr})
    requires |ids| == |again| == |Published(q.file.value)|
    ensures IsRun(w, run) && Healthy(w, After(w, run)) && IsIngest(r) && Route(r) == TaskChunk
    ensures Msg(TaskChunk, r, 4) in After(w, run).pending && Supply(w, After(w, run), again)
    ensures Chunker.Texts(w.backend, After(w, run).blobs, r) == Published(q.file.value)
    ensures Sendings(w, run) == Sent(w, DocOf(r), Published(q.file.value))
    ensures After(w, run).hist.versions == {(r.data.blobURI, q.file.value)}
  {
    r := FileAnnounced(w, q, n);
    TextBlobRouted(r);
    var l1, l2 := Ingest(q, n, true, true), Deliver(Msg(Ingress, r, MAX_DELIVER), Fine([], []));
    var l3 := Deliver(Msg(TaskChunk, r, MAX_DELIVER), Unsettled(ids));
    HealthyStart(w);
    Opening(w, [], l1, r);
    NothingSentYet(w, l1);
    run := [l1];
    Singleton(l1, []);
    Routed(w, After(w, run), r);
    HealthyNext(w, After(w, run), l2);
    DeliveryKeeps(w, After(w, run), l2);
    Appended(w, run, l2);
    run := run + [l2];
    FreshFrom(After(w, run), ids + again);
    SentUnsettled(w, After(w, run), r, ids, again);
    HealthyUnsettled(w, After(w, run), r, ids);
    DeliveryKeeps(w, After(w, run), l3);
    Appended(w, run, l3);
    run := run + [l3];
  }

  lemma NothingSentYet(w: World, l: Label)
    requires !l.Deliver?
    ensures Sendings(w, [l]) == []
  {
    assert [l][..0] == [];
  }

  lemma DeliveryKeeps(w: World, s: State, l: Label)
    requires l.Deliver?
    ensures Next(w, s, l).blobs == s.blobs && Next(w, s, l).hist.versions == s.hist.versions
    ensures Next(w, s, l).hist.used == s.hist.used + (set id | id in l.a.ids)
  {
    VersionsOfDelivery(w, s, l.m, l.a);
    UsedAfter(w, s, l.m, l.a);
  }

  /** Delivered once too often: for every text blob that has a window there is a run, its only fault one lost settlement
      of the chunker, that ends quiet and without a loss, in which its windows were sent twice; and the index is not the
      sequential indexer's. */
  lemma StoredTwice(w: World, q: IngestRequest, n: Names, ids: seq<string>, again: seq<string>)
    returns (run: seq<Label>)
    requires AlwaysVectors(w) && TextBlobRequest(q, n) && Uuids(ids + again, {n.docId, n.corr})
    requires |ids| == |again| == |Published(q.file.value)| && Published(q.file.value) != []
    ensures IsRun(w, run) && Quiet(After(w, run)) && After(w, run).hist.losses == {} && OneVersionEach(After(w, run))
    ensures !Distinct(Sendings(w, run))
    ensures var s := After(w, run); s.store != IndexAll(w, Accepted(w, s, s.stream), NamingOf(w, s.hist.names))
  {
    var r;
    run, r := SentOnce(w, q, n, ids, again);
    var l := Deliver(Msg(TaskChunk, r, 4), Fine(again, []));
    SentAgain(w, After(w, run), r, again);
    HealthyNext(w, After(w, run), l);
    Appended(w, run, l);
    run := run + [l];
    FirstSent(w, DocOf(r), Published(q.file.value));
    TwiceNotDistinct(Sent(w, DocOf(r), Published(q.file.value)));
    var more := FinishesQuiet(w, run, []);
    HealthyOn(w, run, more);
    HealthyLosesNothing(w, After(w, run + more));
    SendingsGrow(w, run, more);
    PrefixNotDistinct(Sendings(w, run), Sendings(w, run + more));
    OneVersionSingle(After(w, run + more), (r.data.blobURI, q.file.value));
    run := run + more;
    RefinesIffSentOnce(w, run);
  }

  lemma FirstSent(w: World, docId: string, texts: seq<string>)
    requires AlwaysVectors(w) && texts != []
    ensures Sent(w, docId, texts) != []
  {
    assert w.vectorise(texts[0]) != [];
    SentMembers(w, docId, texts, (docId, 0));
  }
}
