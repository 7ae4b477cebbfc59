/** What the pipeline promises its callers, end to end and in their own terms: what becomes of an ingest, and what a
    search is answered with. */
module Promises {
  import opened Events
  import opened Text
  import opened Windows
  import opened Blobs
  import opened Environment
  import opened VectorDB
  import opened Gateway
  import opened Protocol
  import opened Provenance
  import opened Invariant
  import opened Identity
  import opened Ledger
  import opened Refinement
  import opened Linearizability
  import opened Answerability
  import opened Requests
  import Cosine
  import Engine

  // What becomes of an ingest.

  /** Step j of the run is an ingest that goes through. */
  predicate Ingested(run: seq<Label>, j: nat) {
    j < |run| && IngestGoesThrough(run[j])
  }

  /** The document is embedded as it is announced: its text goes straight to the embedder. */
  predicate Direct(q: IngestRequest) {
    !Offloaded(q) && !IsImage(q.mime) && !(WithFile(q) && IsText(q.mime))
  }

  /** The document is an image, and its description is embedded. */
  predicate Described(q: IngestRequest) {
    WithFile(q) && IsImage(q.mime)
  }

  /** The document is split into windows. */
  predicate Split(q: IngestRequest) {
    Offloaded(q) || (WithFile(q) && !IsImage(q.mime) && IsText(q.mime))
  }

  lemma RootAtStep(w: World, s: State, l: Label) returns (r: Root)
    requires Enabled(w, s, l) && IngestGoesThrough(l)
    ensures r == IngestAnnouncement(w.backend, l.q, l.n) && IsIngest(r) && Pub(Ingress, r) in Next(w, s, l).stream
  {
    IngestAnnounces(w, s, l);
    RequestEmits(w, s, l, Emitted(w, s, l)[0]);
    r := Emitted(w, s, l)[0].env;
    StreamAfter(w, s, l);
  }

  lemma StillThere(w: World, run: seq<Label>, j: nat, p: Pub)
    requires IsRun(w, run) && j < |run|
    requires p in Next(w, After(w, run[..j]), run[j]).stream
    ensures p in After(w, run).stream
    ensures Next(w, After(w, run[..j]), run[j]).hist.versions <= After(w, run).hist.versions
  {
    RunPrefix(w, run, j);
    RunGrows(w, run, j + 1, |run|);
    WholeRun(run);
  }

  lemma WholeRun(run: seq<Label>)
    ensures run[..|run|] == run
  {
  }

  /** The request as it stands on the stream ever after. */
  lemma RootOf(w: World, run: seq<Label>, j: nat) returns (r: Root)
    requires IsRun(w, run) && Ingested(run, j)
    ensures r == IngestAnnouncement(w.backend, run[j].q, run[j].n)
    ensures Pub(Ingress, r) in After(w, run).stream && IsIngest(r)
    ensures Uploads(run[j].q) ==> (r.data.blobURI, ContentOf(run[j].q)) in After(w, run).hist.versions
  {
    RunPrefix(w, run, j);
    r := RootAtStep(w, After(w, run[..j]), run[j]);
    StillThere(w, run, j, Pub(Ingress, r));
    if Uploads(run[j].q) {
      UploadIsVersion(w, After(w, run[..j]), run[j]);
    }
  }

  lemma UploadIsVersion(w: World, s: State, l: Label)
    requires IngestGoesThrough(l) && Uploads(l.q)
    ensures (UriOf(w.backend, l.q, l.n), ContentOf(l.q)) in Next(w, s, l).hist.versions
  {
    IngestAnnounces(w, s, l);
    VersionsAfter(w, s, l);
    AddressIsUri(w.backend, l.q.tenant, NameOfUpload(l.q, l.n));
    var (t, us) := UploadsOf(w, l);
    assert us[0] == Upload(NameOfUpload(l.q, l.n), ContentOf(l.q));
  }

  lemma RouteOfIngest(b: Backend, q: IngestRequest, n: Names, r: Root)
    requires r == IngestAnnouncement(b, q, n)
    ensures Route(r) == TaskEmbed <==> Direct(q)
    ensures Route(r) == TaskChunk <==> Split(q)
    ensures Route(r) == TaskVision && r.data.blobURI != "" <==> Described(q)
  {
    RouteByType(r);
    AddressIsUri(b, q.tenant, NameOfUpload(q, n));
    PlainText();
  }

  lemma PlainText()
    ensures IsText("text/plain") && !IsImage("text/plain")
  {
    assert "text/plain"[0..] == "text/plain" == "text/" + "plain";
    assert "text/plain"[0] == 't' && "image/"[0] == 'i';
  }

  /** What the index holds of a piece of a document. */
  function IndexedRecord(w: World, q: IngestRequest, n: Names, text: string): Record {
    Record(n.docId, w.vectorise(text), text, UriOf(w.backend, q, n), MimeOf(q))
  }

  lemma PieceReads(w: World, run: seq<Label>, j: nat, r: Root, i: nat) returns (id: string)
    requires IsRun(w, run) && Quiet(After(w, run)) && Ingested(run, j)
    requires r == IngestAnnouncement(w.backend, run[j].q, run[j].n) && Pub(Ingress, r) in After(w, run).stream
    requires OneVersion(After(w, run), r) && i < |Pieces(w, After(w, run), r)|
    requires w.vectorise(Pieces(w, After(w, run), r)[i]) != []
    ensures Reads(After(w, run), run[j].q.tenant, id,
                  IndexedRecord(w, run[j].q, run[j].n, Pieces(w, After(w, run), r)[i]))
    ensures Route(r) == TaskEmbed ==> id == run[j].n.docId
    ensures Route(r) == TaskVision ==> id == run[j].n.docId + "-vision"
    ensures Route(r) == TaskChunk ==> |id| == 36
  {
    LedgerBalances(w, run);
    LossesReachable(w, run);
    id := PieceStored(w, After(w, run), r, i);
    StoredReads(w, After(w, run), run[j].q, run[j].n, r, i, id);
    StoredUnder(w, After(w, run), r, i, id);
  }

  lemma StoredReads(w: World, s: State, q: IngestRequest, n: Names, r: Root, i: nat, id: string)
    requires StoredAs(w, s, r, i, id) && i < |Pieces(w, s, r)| && r == IngestAnnouncement(w.backend, q, n)
    ensures Reads(s, q.tenant, id, IndexedRecord(w, q, n, Pieces(w, s, r)[i]))
  {
    DonePiece(w, s, r, i, id);
  }

  lemma StoredUnder(w: World, s: State, r: Root, i: nat, id: string)
    requires Unique(s) && StoredAs(w, s, r, i, id) && IsIngest(r)
    ensures Route(r) == TaskEmbed ==> id == r.data.documentId
    ensures Route(r) == TaskVision ==> id == r.data.documentId + "-vision"
    ensures Route(r) == TaskChunk ==> |id| == 36
  {
    NamedByUuid(w, s, r, i, id);
  }

  lemma NamedByUuid(w: World, s: State, r: Root, i: nat, id: string)
    requires Unique(s) && StoredAs(w, s, r, i, id)
    ensures Route(r) == TaskChunk ==> |id| == 36
  {
    var x := DoneSrc(s, r, i, id);
    if Route(r) == TaskChunk {
      assert Name(id, DocOf(r), i, TextOf(w, x)) in s.hist.names;
    }
  }

  lemma PiecesOf(w: World, s: State, r: Root, content: string)
    requires OneVersion(s, r) && Route(r) != TaskEmbed && (r.data.blobURI, content) in s.hist.versions
    ensures Pieces(w, s, r) == Texts(w, r, content)
  {
  }

  /** A document that is neither an image nor comes with a text file: once nothing is in flight, the caller's slice
      holds its very text under its ID. */
  lemma DirectIsIndexed(w: World, run: seq<Label>, j: nat)
    requires IsRun(w, run) && Quiet(After(w, run)) && Ingested(run, j) && Direct(run[j].q)
    requires w.vectorise(run[j].q.text) != []
    ensures var (q, n) := (run[j].q, run[j].n);
            Reads(After(w, run), q.tenant, n.docId,
                  Record(n.docId, w.vectorise(q.text), q.text, UriOf(w.backend, q, n), q.mime))
  {
    var r := RootOf(w, run, j);
    RouteOfIngest(w.backend, run[j].q, run[j].n, r);
    assert Pieces(w, After(w, run), r)[0] == run[j].q.text;
    var id := PieceReads(w, run, j, r, 0);
  }

  /** An image: the slice holds its description. */
  lemma ImageIsIndexed(w: World, run: seq<Label>, j: nat)
    requires IsRun(w, run) && Quiet(After(w, run)) && Ingested(run, j) && Described(run[j].q)
    requires OneVersionOf(After(w, run), UriOf(w.backend, run[j].q, run[j].n))
    requires w.vectorise(w.describe(run[j].q.file.value)) != []
    ensures var (q, n) := (run[j].q, run[j].n); var text := w.describe(q.file.value);
            Reads(After(w, run), q.tenant, n.docId + "-vision",
                  Record(n.docId, w.vectorise(text), text, UriOf(w.backend, q, n), q.mime))
  {
    var r := RootOf(w, run, j);
    RouteOfIngest(w.backend, run[j].q, run[j].n, r);
    PiecesOf(w, After(w, run), r, run[j].q.file.value);
    var id := PieceReads(w, run, j, r, 0);
  }

  /** A text file, or a text too large for the bus: for each of its windows that is not white space the slice holds a
      record with that very window. */
  lemma WindowIsIndexed(w: World, run: seq<Label>, j: nat, k: nat) returns (id: string)
    requires IsRun(w, run) && Quiet(After(w, run)) && Ingested(run, j) && Split(run[j].q)
    requires OneVersionOf(After(w, run), UriOf(w.backend, run[j].q, run[j].n))
    requires HasWindow(ContentOf(run[j].q), k) && 450 * k <= |ContentOf(run[j].q)|
    requires !AllSpace(WindowText(ContentOf(run[j].q), k)) && w.vectorise(WindowText(ContentOf(run[j].q), k)) != []
    ensures var (q, n) := (run[j].q, run[j].n); var text := WindowText(ContentOf(q), k);
            Reads(After(w, run), q.tenant, id,
                  Record(n.docId, w.vectorise(text), text, UriOf(w.backend, q, n), MimeOf(q)))
    ensures |id| == 36
  {
    var content := ContentOf(run[j].q);
    var r := RootOf(w, run, j);
    RouteOfIngest(w.backend, run[j].q, run[j].n, r);
    PiecesOf(w, After(w, run), r, content);
    PublishedExactly(content, WindowText(content, k));
    var i :| 0 <= i < |Published(content)| && Published(content)[i] == WindowText(content, k);
    id := PieceReads(w, run, j, r, i);
  }

  // And nothing else is indexed.

  lemma {:induction false} IngestOf(w: World, run: seq<Label>, r: Root) returns (j: nat)
    requires IsRun(w, run) && Pub(Ingress, r) in After(w, run).stream && IsIngest(r)
    ensures Ingested(run, j) && r == IngestAnnouncement(w.backend, run[j].q, run[j].n)
  {
    LastStep(w, run, Pub(Ingress, r));
    var n := |run| - 1;
    if Pub(Ingress, r) in After(w, run[..n]).stream {
      j := IngestOf(w, run[..n], r);
    } else {
      IngestedNow(w, After(w, run[..n]), run[n], r);
      j := n;
    }
  }

  lemma IngestedNow(w: World, s: State, l: Label, r: Root)
    requires Inv(w, s) && Enabled(w, s, l) && IsIngest(r)
    requires Pub(Ingress, r) in Emitted(w, s, l) && Pub(Ingress, r) !in s.stream
    ensures IngestGoesThrough(l) && r == IngestAnnouncement(w.backend, l.q, l.n)
  {
    if l.Deliver? {
      DeliverEmitsRoot(w, s, l.m, l.a, Pub(Ingress, r));
    } else {
      RequestEmits(w, s, l, Pub(Ingress, r));
      IngestAnnounces(w, s, l);
    }
  }

  /** The text of a record of this ingest, under this ID, with `content` uploaded under its URI. */
  ghost predicate TextOfIngest(w: World, q: IngestRequest, n: Names, content: string, id: string, text: string) {
    || (Direct(q) && id == n.docId && text == q.text)
    || (Described(q) && id == n.docId + "-vision" && text == w.describe(content))
    || (Split(q) && |id| == 36 && !AllSpace(text)
        && exists k: nat :: HasWindow(content, k) && 450 * k <= |content| && text == WindowText(content, k))
  }

  lemma TextOfSource(w: World, s: State, q: IngestRequest, n: Names, x: Src)
    requires Inv(w, s) && Unique(s) && ValidSrc(w, s, x) && x.stage.AtDone?
    requires x.root == IngestAnnouncement(w.backend, q, n)
    ensures TextOfIngest(w, q, n, x.blob, x.id, TextOf(w, x))
    ensures Direct(q) || (UriOf(w.backend, q, n), x.blob) in s.hist.versions
  {
    RouteOfIngest(w.backend, q, n, x.root);
    match Route(x.root)
    case TaskVision => VersionNamed(w, s, (x.root.data.blobURI, x.blob));
    case TaskChunk =>
      PublishedExactly(x.blob, TextOf(w, x));
      assert Name(x.id, DocOf(x.root), x.i, TextOf(w, x)) in s.hist.names;
    case _ =>
  }

  /** Whatever the index holds, some ingest of that tenant put there: its text, the description of its image or a window
      of its file or large text; with its type and under its URI. */
  lemma RecordIsIngested(w: World, run: seq<Label>, t: string, id: string) returns (j: nat, content: string)
    requires IsRun(w, run) && Has(After(w, run).store, t, id)
    ensures Ingested(run, j) && run[j].q.tenant == t
    ensures var (q, n, rec) := (run[j].q, run[j].n, After(w, run).store[t][id]);
            && TextOfIngest(w, q, n, content, id, rec.text)
            && rec == Record(n.docId, w.vectorise(rec.text), rec.text, UriOf(w.backend, q, n), MimeOf(q))
            && (Direct(q) || (rec.fileURI, content) in After(w, run).hist.versions)
  {
    SoundReachable(w, run);
    var x :| StoredFrom(w, After(w, run), t, id, x);
    j := IngestOf(w, run, x.root);
    content := x.blob;
    TextOfSource(w, After(w, run), run[j].q, run[j].n, x);
  }

  // Which searches are answered.

  /** The search can be answered: it comes with its image, or with no text file; and what it looks for has a vector. */
  predicate CanBeAnswered(w: World, q: SearchRequest) {
    if IsImage(q.mime) then QueryHasFile(q) && w.vectorise(w.describe(q.file.value)) != []
    else !(QueryHasFile(q) && IsText(q.mime)) && w.vectorise(q.query) != []
  }

  /** Step j of the run is a search that goes through. */
  predicate Asked(run: seq<Label>, j: nat) {
    j < |run| && SearchGoesThrough(run[j])
  }

  lemma SearchRootAtStep(w: World, s: State, l: Label) returns (r: Root)
    requires Enabled(w, s, l) && SearchGoesThrough(l)
    ensures r == SearchAnnouncement(w.backend, l.s, l.corr) && !IsIngest(r) && Pub(Ingress, r) in Next(w, s, l).stream
    ensures QueryHasFile(l.s) ==> (r.data.blobURI, l.s.file.value) in Next(w, s, l).hist.versions
  {
    SearchAnnounces(w, s, l);
    RequestEmits(w, s, l, Emitted(w, s, l)[0]);
    r := Emitted(w, s, l)[0].env;
    StreamAfter(w, s, l);
    if QueryHasFile(l.s) {
      VersionsAfter(w, s, l);
      AddressIsUri(w.backend, l.s.tenant, l.s.filename);
      assert UploadsOf(w, l).1[0] == Upload(l.s.filename, l.s.file.value);
    }
  }

  lemma SearchRootOf(w: World, run: seq<Label>, j: nat) returns (r: Root)
    requires IsRun(w, run) && Asked(run, j)
    ensures r == SearchAnnouncement(w.backend, run[j].s, run[j].corr)
    ensures Pub(Ingress, r) in After(w, run).stream && !IsIngest(r)
    ensures QueryHasFile(run[j].s) ==> (r.data.blobURI, run[j].s.file.value) in After(w, run).hist.versions
  {
    RunPrefix(w, run, j);
    r := SearchRootAtStep(w, After(w, run[..j]), run[j]);
    StillThere(w, run, j, Pub(Ingress, r));
  }

  lemma RouteOfSearch(b: Backend, q: SearchRequest, corr: string, r: Root)
    requires r == SearchAnnouncement(b, q, corr)
    ensures Route(r) == if IsImage(q.mime) then TaskVision
                        else if QueryHasFile(q) && IsText(q.mime) then TaskChunk
                        else TaskEmbed
    ensures r.data.blobURI != "" <==> QueryHasFile(q)
  {
    RouteByType(r);
    AddressIsUri(b, q.tenant, q.filename);
  }

  lemma AnswerableIff(w: World, s: State, q: SearchRequest, r: Root)
    requires r == SearchAnnouncement(w.backend, q, r.correlationId) && !IsIngest(r) && OneVersion(s, r)
    requires QueryHasFile(q) ==> (r.data.blobURI, q.file.value) in s.hist.versions
    ensures Answerable(w, s, r) <==> CanBeAnswered(w, q)
  {
    RouteOfSearch(w.backend, q, r.correlationId, r);
    if IsImage(q.mime) && QueryHasFile(q) {
      PiecesOf(w, s, r, q.file.value);
    }
  }

  lemma AnsweredIsReplied(w: World, run: seq<Label>, corr: string)
    requires IsRun(w, run) && Answered(w, run, corr)
    ensures Replied(After(w, run), corr)
  {
    if Returned(run, corr) {
      ReturnedReplied(w, run, corr);
    } else {
      HeldReplied(w, run, corr);
    }
  }

  /** Whatever happens, a search that is not for an image and comes with a text file is never answered. */
  lemma TextFileIsNeverAnswered(w: World, run: seq<Label>, j: nat)
    requires IsRun(w, run) && Asked(run, j) && QueryHasFile(run[j].s)
    requires IsText(run[j].s.mime) && !IsImage(run[j].s.mime)
    ensures !Answered(w, run, run[j].corr)
  {
    var r := SearchRootOf(w, run, j);
    RouteOfSearch(w.backend, run[j].s, run[j].corr, r);
    if Answered(w, run, run[j].corr) {
      AnsweredIsReplied(w, run, run[j].corr);
      var x := NeverReplied(w, run, r);
    }
  }

  lemma NoVersionOfNothing(w: World, s: State)
    requires Inv(w, s)
    ensures OneVersionOf(s, "")
  {
    forall v | v in s.hist.versions ensures v.0 != "" {
      VersionNamed(w, s, v);
    }
  }

  /** In a run without faults, once nothing is in flight, a search that was not given up has its answer if and only if
      it can be answered: an image with its file, or else no text file; and its text, or the image's description, has
      a vector. */
  lemma SearchIsAnsweredIff(w: World, run: seq<Label>, j: nat)
    requires IsRun(w, run) && FaultlessRun(run) && After(w, run).pending == multiset{}
    requires Asked(run, j) && NeverTimedOut(run, run[j].corr)
    requires IsImage(run[j].s.mime) && QueryHasFile(run[j].s) ==>
               OneVersionOf(After(w, run), Address(w.backend, run[j].s.tenant, run[j].s.filename))
    ensures Answered(w, run, run[j].corr) <==> CanBeAnswered(w, run[j].s)
  {
    var q := run[j].s;
    if !IsImage(q.mime) && QueryHasFile(q) && IsText(q.mime) {
      TextFileIsNeverAnswered(w, run, j);
    } else {
      var r := SearchRootOf(w, run, j);
      RouteOfSearch(w.backend, q, run[j].corr, r);
      InvReachable(w, run);
      NoVersionOfNothing(w, After(w, run));
      AnswerableIff(w, After(w, run), q, r);
      AnsweredIffAnswerable(w, run, r);
    }
  }

  // What a search is answered with.

  function ResultIds(rs: seq<SearchResult>): set<string> {
    set a | 0 <= a < |rs| :: rs[a].chunkId
  }

  /** The result tells of that record, and its score is the record's. */
  ghost predicate Tells(sqrt: real -> real, slice: map<string, Record>, q: Vector, r: SearchResult) {
    && r.chunkId in slice
    && var rec := slice[r.chunkId];
       |rec.vector| == |q| &&
       r == SearchResult(rec.docId, r.chunkId, Cosine.Similarity(sqrt, q, rec.vector), rec.text, rec.fileURI,
                         rec.mimeType)
  }

  /** The list the caller was promised: as many as asked for if there are so many, each of a record of its own, best
      first, and none left out that scores higher. */
  ghost predicate BestList(sqrt: real -> real, slice: map<string, Record>, q: Vector, k: nat, rs: seq<SearchResult>) {
    && (var alike := set id | id in slice && |slice[id].vector| == |q|;
        |rs| == if |alike| < k then |alike| else k)
    && (forall a | 0 <= a < |rs| :: Tells(sqrt, slice, q, rs[a]))
    && (forall a, b | 0 <= a < b < |rs| :: rs[a].chunkId != rs[b].chunkId && rs[a].score >= rs[b].score)
    && (forall id, a | id in slice && |slice[id].vector| == |q| && id !in ResultIds(rs) && 0 <= a < |rs| ::
          Cosine.Similarity(sqrt, q, slice[id].vector) <= rs[a].score)
  }

  lemma AnswerIsBest(sqrt: real -> real, store: Store, t: string, q: Vector, k: nat, rs: seq<SearchResult>)
    requires Engine.IsAnswer(sqrt, store, t, q, k, rs)
    ensures BestList(sqrt, Slice(store, t), q, k, rs)
  {
    var hits :| IsTopK(sqrt, Slice(store, t), q, k, hits) && rs == Engine.AllToTransport(hits);
    HitsAreBest(sqrt, Slice(store, t), q, k, hits, rs);
  }

  lemma HitsAreBest(sqrt: real -> real, slice: map<string, Record>, q: Vector, k: nat, hits: seq<Hit>,
                    rs: seq<SearchResult>)
    requires IsTopK(sqrt, slice, q, k, hits) && rs == Engine.AllToTransport(hits)
    ensures BestList(sqrt, slice, q, k, rs)
  {
    assert Candidates(slice, q) == set id | id in slice && |slice[id].vector| == |q|;
    assert forall a | 0 <= a < |hits| :: rs[a] == Engine.ToTransport(hits[a]) && hits[a] in hits;
    assert ResultIds(rs) == Ids(hits);
    forall id, a | id in slice && |slice[id].vector| == |q| && id !in ResultIds(rs) && 0 <= a < |rs|
      ensures Cosine.Similarity(sqrt, q, slice[id].vector) <= rs[a].score
    {
      assert id in Candidates(slice, q) && Score(sqrt, slice, q, id) <= hits[a].score;
    }
  }

  /** Record `id` is left out of the results, or ranked behind the one in place a. */
  ghost predicate RankedBehind(rs: seq<SearchResult>, a: nat, id: string) {
    a < |rs| && forall b | 0 <= b <= a :: rs[b].chunkId != id
  }

  lemma BehindIsLower(sqrt: real -> real, slice: map<string, Record>, q: Vector, k: nat, rs: seq<SearchResult>, a: nat,
                      id: string)
    requires BestList(sqrt, slice, q, k, rs) && id in slice && |slice[id].vector| == |q| && RankedBehind(rs, a, id)
    ensures Cosine.Similarity(sqrt, q, slice[id].vector) <= rs[a].score
  {
    if id in ResultIds(rs) {
      var b :| 0 <= b < |rs| && rs[b].chunkId == id;
      assert Tells(sqrt, slice, q, rs[b]) && a < b;
    }
  }

  /** What a best list means for the vectors: a record ranked behind another, or left out, is no closer to the query. */
  lemma BestIsNearest(sqrt: real -> real, slice: map<string, Record>, q: Vector, k: nat, rs: seq<SearchResult>, a: nat,
                      id: string)
    requires Cosine.IsSqrt(sqrt) && BestList(sqrt, slice, q, k, rs)
    requires id in slice && |slice[id].vector| == |q| && RankedBehind(rs, a, id)
    ensures rs[a].chunkId in slice
    ensures Cosine.NoCloser(sqrt, q, slice[id].vector, slice[rs[a].chunkId].vector)
  {
    BehindIsLower(sqrt, slice, q, k, rs, a, id);
    assert Tells(sqrt, slice, q, rs[a]);
    Cosine.ScoresNoHigher(sqrt, q, slice[id].vector, slice[rs[a].chunkId].vector);
  }

  /** What the search looks for: its text, or the description of its image. */
  function LooksFor(w: World, q: SearchRequest, content: string): string {
    if IsImage(q.mime) then w.describe(content) else q.query
  }

  /** How many results it is to get: what it asked for on the direct route, five if it asked for none or is an image. */
  function ToReturn(q: SearchRequest): nat {
    if IsImage(q.mime) || q.topK <= 0 then 5 else q.topK
  }

  lemma QueryOfSource(w: World, s: State, before: State, l: Label, x: Src, results: seq<SearchResult>)
    requires Inv(w, s) && Enabled(w, before, l) && l.Search? && Emitted(w, before, l) == [Pub(Ingress, x.root)]
    requires ValidSrc(w, s, x) && x.i < |Texts(w, x.root, x.blob)| && !IsIngest(x.root)
    requires AnswersSource(w, s, x, results)
    ensures SearchGoesThrough(l) && x.root == SearchAnnouncement(w.backend, l.s, l.corr)
    ensures BestList(w.sqrt, Slice(s.store, l.s.tenant), w.vectorise(LooksFor(w, l.s, x.blob)), ToReturn(l.s), results)
  {
    SearchAnnounces(w, before, l);
    RouteOfSearch(w.backend, l.s, l.corr, x.root);
    AnswerIsBest(w.sqrt, s.store, l.s.tenant, w.vectorise(TextOf(w, x)), Engine.EffectiveTopK(CarriedTopK(x.root)),
                 results);
  }

  /** The content is one that was uploaded under the search's URI: its own file, if there was no other. */
  ghost predicate OwnContent(b: Backend, s: State, q: SearchRequest, content: string) {
    var uri := Address(b, q.tenant, q.filename);
    && QueryHasFile(q) && (uri, content) in s.hist.versions
    && (OneVersionOf(s, uri) ==> content == q.file.value)
  }

  lemma ContentOfSource(w: World, s: State, q: SearchRequest, corr: string, x: Src)
    requires Inv(w, s) && BlobOk(s, x) && x.root == SearchAnnouncement(w.backend, q, corr) && IsImage(q.mime)
    requires QueryHasFile(q) ==> (x.root.data.blobURI, q.file.value) in s.hist.versions
    ensures OwnContent(w.backend, s, q, x.blob)
  {
    RouteOfSearch(w.backend, q, corr, x.root);
    VersionNamed(w, s, (x.root.data.blobURI, x.blob));
  }

  /** Whatever a search returns is, in its tenant's slice as it stood at some step between its call and its return, the
      best list for its text or the description of its image, of the length it asked for or five. */
  lemma SearchReturnsBest(w: World, run: seq<Label>, n: nat) returns (j: nat, i: nat, content: string)
    requires IsRun(w, run) && n < |run| && run[n].Return?
    ensures j < i <= n && Asked(run, j) && run[j].corr == run[n].corr && run[j].s.tenant == run[n].tenant
    ensures IsImage(run[j].s.mime) ==> OwnContent(w.backend, After(w, run[..i]), run[j].s, content)
    ensures BestList(w.sqrt, Slice(After(w, run[..i]).store, run[n].tenant),
                 w.vectorise(LooksFor(w, run[j].s, content)), ToReturn(run[j].s), run[n].results)
  {
    var x;
    j, i, x := SearchLinearizable(w, run, n);
    content := x.blob;
    BestOfSource(w, run, j, i, x, run[n].results);
    if IsImage(run[j].s.mime) {
      ImageOfSource(w, run, j, i, x);
    }
  }

  lemma BestOfSource(w: World, run: seq<Label>, j: nat, i: nat, x: Src, results: seq<SearchResult>)
    requires IsRun(w, run) && j < i <= |run| && IsCall(w, run, j, x.root) && !IsIngest(x.root)
    requires ValidSrc(w, After(w, run[..i]), x) && x.i < |Texts(w, x.root, x.blob)|
    requires AnswersSource(w, After(w, run[..i]), x, results)
    ensures Asked(run, j) && x.root == SearchAnnouncement(w.backend, run[j].s, run[j].corr)
    ensures BestList(w.sqrt, Slice(After(w, run[..i]).store, run[j].s.tenant),
                 w.vectorise(LooksFor(w, run[j].s, x.blob)), ToReturn(run[j].s), results)
  {
    RunPrefix(w, run, j);
    RunPrefix(w, run, i);
    InvReachable(w, run[..i]);
    QueryOfSource(w, After(w, run[..i]), After(w, run[..j]), run[j], x, results);
  }

  lemma ImageOfSource(w: World, run: seq<Label>, j: nat, i: nat, x: Src)
    requires IsRun(w, run) && j < i <= |run| && Asked(run, j) && IsImage(run[j].s.mime)
    requires x.root == SearchAnnouncement(w.backend, run[j].s, run[j].corr) && BlobOk(After(w, run[..i]), x)
    ensures OwnContent(w.backend, After(w, run[..i]), run[j].s, x.blob)
  {
    RunPrefix(w, run, i);
    InvReachable(w, run[..i]);
    UploadStays(w, run, j, i);
    RouteOfSearch(w.backend, run[j].s, run[j].corr, x.root);
    ContentOfSource(w, After(w, run[..i]), run[j].s, run[j].corr, x);
  }

  lemma UploadStays(w: World, run: seq<Label>, j: nat, i: nat)
    requires IsRun(w, run) && Asked(run, j) && j < i <= |run|
    ensures QueryHasFile(run[j].s) ==>
              (QueryUri(w.backend, run[j].s), run[j].s.file.value) in After(w, run[..i]).hist.versions
  {
    RunPrefix(w, run, j);
    var r := SearchRootAtStep(w, After(w, run[..j]), run[j]);
    RunGrows(w, run, j + 1, i);
  }
}
