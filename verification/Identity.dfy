/** Names are unique along every run: a document ID, a search's correlation ID or a chunk ID belongs to one request. */
module Identity {
  import opened Wrappers
  import opened Events
  import opened Blobs
  import opened Environment
  import opened Gateway
  import opened Protocol
  import opened Provenance
  import opened Invariant

  predicate IsIngestRoot(e: Envelope) {
    IsRoot(e) && e.typ == IngestRequested
  }

  predicate IsSearchRoot(e: Envelope) {
    IsRoot(e) && e.typ == SearchRequested
  }

  ghost predicate NamesOk(s: State) {
    && (forall n | n in s.hist.names :: n.id in s.hist.used && |n.id| == UUID_LENGTH)
    && (forall n, n' | n in s.hist.names && n' in s.hist.names && n.id == n'.id :: n == n')
  }

  ghost predicate DocsOk(s: State) {
    && (forall p | p in s.stream && IsIngestRoot(p.env) ::
          && p.env.data.documentId in s.hist.used && |p.env.data.documentId| == UUID_LENGTH
          && forall n | n in s.hist.names :: n.id != p.env.data.documentId)
    && (forall p, q | p in s.stream && q in s.stream && IsIngestRoot(p.env) && IsIngestRoot(q.env)
                      && p.env.data.documentId == q.env.data.documentId :: p.env == q.env)
  }

  ghost predicate SearchesOk(s: State) {
    && (forall p | p in s.stream && IsSearchRoot(p.env) :: p.env.correlationId in s.hist.used)
    && (forall p, q | p in s.stream && q in s.stream && IsSearchRoot(p.env) && IsSearchRoot(q.env)
                      && p.env.correlationId == q.env.correlationId :: p.env == q.env)
  }

  ghost predicate Unique(s: State) {
    NamesOk(s) && DocsOk(s) && SearchesOk(s)
  }

  /** A request seen for the first time comes from the gateway, under fresh names. */
  lemma NewRoot(w: World, s: State, l: Label, p: Pub)
    requires Inv(w, s) && Enabled(w, s, l) && p in Next(w, s, l).stream && IsRoot(p.env)
    requires forall q | q in s.stream :: q.env != p.env
    ensures (l.Ingest? || l.Search?) && Emitted(w, s, l) == [p]
    ensures l.Ingest? ==> p.env.typ == IngestRequested && p.env.data.documentId == l.n.docId
    ensures l.Search? ==> p.env.typ == SearchRequested && p.env.correlationId == l.corr
  {
    StreamAfter(w, s, l);
    if l.Deliver? {
      DeliverEmitsRoot(w, s, l.m, l.a, p);
    } else {
      RequestEmits(w, s, l, p);
    }
  }

  lemma NamesStep(w: World, s: State, l: Label, n: Name)
    requires Enabled(w, s, l) && n in Next(w, s, l).hist.names && n !in s.hist.names
    ensures l.Deliver? && n in NewNames(w, s, l.m, l.a) && n.index < |l.a.ids| && n.id == l.a.ids[n.index]
    ensures n.id !in s.hist.used && |n.id| == UUID_LENGTH && n.id in Next(w, s, l).hist.used
  {
  }

  lemma NamesOkNext(w: World, s: State, l: Label)
    requires NamesOk(s) && Enabled(w, s, l)
    ensures NamesOk(Next(w, s, l))
  {
    var s' := Next(w, s, l);
    NextGrows(w, s, l);
    forall n | n in s'.hist.names ensures n.id in s'.hist.used && |n.id| == UUID_LENGTH {
      if n !in s.hist.names { NamesStep(w, s, l, n); }
    }
    forall n, n' | n in s'.hist.names && n' in s'.hist.names && n.id == n'.id ensures n == n' {
      SameIdSameName(w, s, l, n, n');
    }
  }

  lemma SameIdSameName(w: World, s: State, l: Label, n: Name, n': Name)
    requires NamesOk(s) && Enabled(w, s, l) && n.id == n'.id
    requires n in Next(w, s, l).hist.names && n' in Next(w, s, l).hist.names
    ensures n == n'
  {
    if n !in s.hist.names { NamesStep(w, s, l, n); }
    if n' !in s.hist.names { NamesStep(w, s, l, n'); }
  }

  ghost predicate OnStream(s: State, e: Envelope) {
    exists q :: q in s.stream && q.env == e
  }

  lemma DocsOkNext(w: World, s: State, l: Label)
    requires Inv(w, s) && Unique(s) && Enabled(w, s, l)
    ensures DocsOk(Next(w, s, l))
  {
    var s' := Next(w, s, l);
    NextGrows(w, s, l);
    forall p | p in s'.stream && IsIngestRoot(p.env)
      ensures p.env.data.documentId in s'.hist.used && |p.env.data.documentId| == UUID_LENGTH
      ensures forall n | n in s'.hist.names :: n.id != p.env.data.documentId
    {
      if OnStream(s, p.env) {
        forall n | n in s'.hist.names ensures n.id != p.env.data.documentId {
          if n !in s.hist.names { NamesStep(w, s, l, n); }
        }
      } else {
        NewRoot(w, s, l, p);
      }
    }
    forall p, q | p in s'.stream && q in s'.stream && IsIngestRoot(p.env) && IsIngestRoot(q.env)
                  && p.env.data.documentId == q.env.data.documentId ensures p.env == q.env
    {
      if !OnStream(s, p.env) { NewRoot(w, s, l, p); }
      if !OnStream(s, q.env) { NewRoot(w, s, l, q); }
    }
  }

  lemma SearchUsed(w: World, s: State, l: Label, p: Pub)
    requires Inv(w, s) && SearchesOk(s) && Enabled(w, s, l) && p in Next(w, s, l).stream && IsSearchRoot(p.env)
    ensures p.env.correlationId in Next(w, s, l).hist.used
    ensures !OnStream(s, p.env) ==> l.Search? && Emitted(w, s, l) == [p] && p.env.correlationId == l.corr
    ensures OnStream(s, p.env) ==> p.env.correlationId in s.hist.used
  {
    if OnStream(s, p.env) {
      NextGrows(w, s, l);
    } else {
      NewRoot(w, s, l, p);
    }
  }

  lemma SameSearchRoot(w: World, s: State, l: Label, p: Pub, q: Pub)
    requires Inv(w, s) && SearchesOk(s) && Enabled(w, s, l)
    requires p in Next(w, s, l).stream && q in Next(w, s, l).stream && IsSearchRoot(p.env) && IsSearchRoot(q.env)
    requires p.env.correlationId == q.env.correlationId
    ensures p.env == q.env
  {
    SearchUsed(w, s, l, p);
    SearchUsed(w, s, l, q);
  }

  lemma SearchesOkNext(w: World, s: State, l: Label)
    requires Inv(w, s) && Unique(s) && Enabled(w, s, l)
    ensures SearchesOk(Next(w, s, l))
  {
    var s' := Next(w, s, l);
    forall p | p in s'.stream && IsSearchRoot(p.env) ensures p.env.correlationId in s'.hist.used {
      SearchUsed(w, s, l, p);
    }
    forall p, q | p in s'.stream && q in s'.stream && IsSearchRoot(p.env) && IsSearchRoot(q.env)
                  && p.env.correlationId == q.env.correlationId ensures p.env == q.env
    {
      SameSearchRoot(w, s, l, p, q);
    }
  }

  lemma UniqueNext(w: World, s: State, l: Label)
    requires Inv(w, s) && Unique(s) && Enabled(w, s, l)
    ensures Unique(Next(w, s, l))
  {
    NamesOkNext(w, s, l);
    DocsOkNext(w, s, l);
    SearchesOkNext(w, s, l);
  }

  lemma {:induction false} UniqueReachable(w: World, run: seq<Label>)
    requires IsRun(w, run)
    ensures Inv(w, After(w, run)) && Unique(After(w, run))
  {
    InvReachable(w, run);
    if run != [] {
      var n := |run| - 1;
      UniqueReachable(w, run[..n]);
      UniqueNext(w, After(w, run[..n]), run[n]);
    }
  }

  /** A chunk ID under which an ingest is embedded determines the request and the piece and, unless a describer wrote
      it, the text. */
  lemma ChunkIdDetermines(w: World, s: State, x: Src, y: Src)
    requires Unique(s) && ValidSrc(w, s, x) && ValidSrc(w, s, y)
    requires !x.stage.AtRoot? && !y.stage.AtRoot? && IsIngest(x.root) && IsIngest(y.root) && x.id == y.id
    ensures x.root == y.root && x.i == y.i
    ensures Route(x.root) != TaskVision ==> TextOf(w, x) == TextOf(w, y)
    ensures Route(x.root) != TaskVision <==> |x.id| == UUID_LENGTH
  {
    var p, q := Pub(Ingress, x.root), Pub(Ingress, y.root);
    assert IsIngestRoot(p.env) && IsIngestRoot(q.env);
    var d, e := DocOf(x.root), DocOf(y.root);
    assert |d| == |e| == UUID_LENGTH;
    assert (d + "-vision")[..|d|] == d && (e + "-vision")[..|e|] == e;
    assert |d + "-vision"| == UUID_LENGTH + 7;
  }

  // What a request is split into depends on the content under its blob URI, so it is fixed as long as no other content
  // is uploaded under that URI.

  ghost predicate OneVersionOf(s: State, uri: string) {
    forall c, d | (uri, c) in s.hist.versions && (uri, d) in s.hist.versions :: c == d
  }

  /** The request needs no blob, or every upload to its URI had the same content. */
  ghost predicate OneVersion(s: State, r: Root) {
    Route(r) == TaskEmbed || OneVersionOf(s, r.data.blobURI)
  }

  /** The content a request's worker reads: none needed on the direct route. */
  ghost function Content(s: State, r: Root): Option<string> {
    if Route(r) == TaskEmbed then Some("")
    else if exists c :: (r.data.blobURI, c) in s.hist.versions
    then (var c :| (r.data.blobURI, c) in s.hist.versions; Some(c))
    else None
  }

  /** The pieces of an accepted request. */
  ghost function Pieces(w: World, s: State, r: Root): seq<string> {
    if Content(s, r).None? then [] else Texts(w, r, Content(s, r).value)
  }

  lemma SrcContent(w: World, s: State, x: Src)
    requires OneVersion(s, x.root) && ValidSrc(w, s, x) && !x.stage.AtRoot?
    ensures Content(s, x.root) == Some(x.blob) && x.i < |Pieces(w, s, x.root)|
    ensures TextOf(w, x) == Pieces(w, s, x.root)[x.i]
  {
  }

  /** A worker that finds a blob finds the request's content. */
  lemma DownloadContent(w: World, s: State, r: Root)
    requires Inv(w, s) && OneVersion(s, r) && Route(r) != TaskEmbed && Pub(Ingress, r) in s.stream
    ensures var c := Download(w.backend, s.blobs, r.data.blobURI);
            c.Some? ==> Content(s, r) == c
  {
    DownloadIsVersion(w, s, r);
  }

  lemma VersionNamed(w: World, s: State, v: (string, string))
    requires Inv(w, s) && v in s.hist.versions
    ensures v.0 != ""
  {
    var t, f :| v.0 == Uri(w.backend, t, f);
    KeyOfUri(w.backend, t, f);
  }

  lemma SameContent(w: World, s: State, s': State, r: Root)
    requires s.hist.versions <= s'.hist.versions && OneVersion(s', r)
    requires (exists c :: (r.data.blobURI, c) in s.hist.versions) ||
             forall c :: (r.data.blobURI, c) !in s'.hist.versions
    ensures OneVersion(s, r) && Content(s', r) == Content(s, r) && Pieces(w, s', r) == Pieces(w, s, r)
  {
  }

  lemma ContentKept(w: World, s: State, s': State, r: Root)
    requires Inv(w, s) && Inv(w, s') && Grows(s, s') && Pub(Ingress, r) in s.stream && OneVersion(s', r)
    ensures OneVersion(s, r) && Content(s', r) == Content(s, r) && Pieces(w, s', r) == Pieces(w, s, r)
  {
    assert RootUriOk(w, s, Pub(Ingress, r).env);
    forall c | (r.data.blobURI, c) in s'.hist.versions ensures r.data.blobURI != "" {
      VersionNamed(w, s', (r.data.blobURI, c));
    }
    SameContent(w, s, s', r);
  }

  /** A step that uploads nothing else under its URI leaves a request's pieces as they were. */
  lemma PiecesKept(w: World, s: State, l: Label, r: Root)
    requires Inv(w, s) && Enabled(w, s, l) && Pub(Ingress, r) in s.stream && OneVersion(Next(w, s, l), r)
    ensures OneVersion(s, r) && Content(Next(w, s, l), r) == Content(s, r)
    ensures Pieces(w, Next(w, s, l), r) == Pieces(w, s, r)
  {
    NextGrows(w, s, l);
    InvNext(w, s, l);
    ContentKept(w, s, Next(w, s, l), r);
  }

  // It is enough never to upload to a URI twice.

  /** No step uploads to a URI that was uploaded to before. */
  ghost predicate FreshUpload(w: World, s: State, l: Label) {
    var (t, us) := UploadsOf(w, l);
    forall i, v | 0 <= i < |us| && v in s.hist.versions :: v.0 != Uri(w.backend, t, us[i].filename)
  }

  ghost predicate FreshRun(w: World, run: seq<Label>) {
    run == [] || (FreshRun(w, run[..|run| - 1]) && FreshUpload(w, After(w, run[..|run| - 1]), run[|run| - 1]))
  }

  lemma OneUpload(w: World, l: Label)
    ensures |UploadsOf(w, l).1| <= 1
  {
  }

  lemma OneNewVersion(b: Backend, t: string, us: seq<Upload>, v: (string, string))
    requires |us| <= 1 && v in NewVersions(b, t, us)
    ensures |us| == 1 && v == (Uri(b, t, us[0].filename), us[0].content)
  {
  }

  lemma {:induction false} FreshRunOneVersion(w: World, run: seq<Label>, uri: string)
    requires FreshRun(w, run)
    ensures OneVersionOf(After(w, run), uri)
  {
    if run != [] {
      var n := |run| - 1;
      FreshRunOneVersion(w, run[..n], uri);
      FreshStep(w, After(w, run[..n]), run[n], uri);
    }
  }

  lemma FreshStep(w: World, s: State, l: Label, uri: string)
    requires OneVersionOf(s, uri) && FreshUpload(w, s, l)
    ensures OneVersionOf(Next(w, s, l), uri)
  {
    var (t, us) := UploadsOf(w, l);
    VersionsAfter(w, s, l);
    OneUpload(w, l);
    forall c | (uri, c) in Next(w, s, l).hist.versions && (uri, c) !in s.hist.versions
      ensures us != [] && uri == Uri(w.backend, t, us[0].filename) && c == us[0].content
    {
      OneNewVersion(w.backend, t, us, (uri, c));
    }
    if us != [] {
      assert forall v | v in s.hist.versions :: v.0 != Uri(w.backend, t, us[0].filename);
      assert forall c :: (uri, c) in s.hist.versions ==> (uri, c).0 != Uri(w.backend, t, us[0].filename);
    }
  }

  lemma EmptyUri(w: World, s: State)
    requires Inv(w, s)
    ensures Download(w.backend, s.blobs, "") == None
  {
    forall v | v in s.hist.versions ensures v.0 != "" {
      var t, f :| v.0 == Uri(w.backend, t, f);
      assert |v.0| > 0;
    }
    assert forall k | k in s.blobs :: UriOfKey(w.backend, k) != "";
  }
}
