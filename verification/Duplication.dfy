/** The refinement's condition is exact: a window that has a vector and was sent in two deliveries is stored twice. */
module Duplication {
  import opened Wrappers
  import opened Events
  import opened Bus
  import opened Blobs
  import opened Environment
  import opened VectorDB
  import opened Protocol
  import opened Provenance
  import opened Invariant
  import opened Identity
  import opened Ledger
  import opened Refinement

  /** The chunker drew n for a window of the accepted document r. */
  ghost predicate NameOf(s: State, r: Root, n: Name) {
    Pub(Ingress, r) in s.stream && IsIngest(r) && Route(r) == TaskChunk && DocOf(r) == n.docId
  }

  ghost predicate NameBooked(w: World, s: State, r: Root, n: Name) {
    OneVersion(s, r) ==>
      && n.index < |Pieces(w, s, r)| && Pieces(w, s, r)[n.index] == n.text
      && Accounted(w, s, r, n.index, Some(n.id))
  }

  ghost predicate NameAccounted(w: World, s: State, n: Name) {
    exists r: Root :: NameOf(s, r, n) && NameBooked(w, s, r, n)
  }

  /** The ledger once more, by chunk ID: every name the chunker ever drew for a window of a document whose URI was given
      one content is stored, in flight, lost, or wiped by a restart. */
  ghost predicate NamesAccounted(w: World, s: State) {
    forall n | n in s.hist.names :: NameAccounted(w, s, n)
  }

  lemma OldNameAccounted(w: World, s: State, l: Label, n: Name)
    requires Sound(w, s) && Enabled(w, s, l) && NameAccounted(w, s, n)
    ensures NameAccounted(w, Next(w, s, l), n)
  {
    var r: Root :| NameOf(s, r, n) && NameBooked(w, s, r, n);
    NextGrows(w, s, l);
    NameOfKept(s, Next(w, s, l), r, n);
    NameBookedNext(w, s, l, r, n);
  }

  lemma NameOfKept(s: State, s': State, r: Root, n: Name)
    requires NameOf(s, r, n) && Grows(s, s')
    ensures NameOf(s', r, n)
  {
  }

  lemma NameBookedNext(w: World, s: State, l: Label, r: Root, n: Name)
    requires Sound(w, s) && Enabled(w, s, l) && Pub(Ingress, r) in s.stream && NameBooked(w, s, r, n)
    ensures NameBooked(w, Next(w, s, l), r, n)
  {
    if OneVersion(Next(w, s, l), r) {
      PiecesKept(w, s, l, r);
      AccountedNext(w, s, l, r, n.index, Some(n.id));
    }
  }

  lemma ChunkedRoot(w: World, s: State, m: Msg, a: Answers, x: Src)
    requires m.env == EnvOf(w, x) && TopicOk(m.topic, x) && Named(w, s, m, a) != []
    ensures m.topic == TaskChunk == Route(x.root) && m.env == x.root && IsIngest(x.root)
    ensures DecodeIngest(m.env.data).documentId == DocOf(x.root)
    ensures var content := Download(w.backend, s.blobs, x.root.data.blobURI);
            content.Some? && Named(w, s, m, a) <= Texts(w, x.root, content.value)
  {
  }

  lemma TasksNotReplies(w: World, s: State, m: Msg, a: Answers)
    requires Named(w, s, m, a) != []
    ensures !m.topic.Reply?
  {
  }

  lemma NewNameAccounted(w: World, s: State, l: Label, n: Name)
    requires Sound(w, s) && Enabled(w, s, l) && n in Next(w, s, l).hist.names && n !in s.hist.names
    ensures NameAccounted(w, Next(w, s, l), n)
  {
    NamesOfStep(w, s, l, n);
    TasksNotReplies(w, s, l.m, l.a);
    var x := PlaceOf(w, s, l.m);
    ChunkedRoot(w, s, l.m, l.a, x);
    NextGrows(w, s, l);
    NameOfKept(s, Next(w, s, l), x.root, n);
    NewNameBooked(w, s, l, x.root, n);
  }

  lemma NewNameBooked(w: World, s: State, l: Label, r: Root, n: Name)
    requires Sound(w, s) && Enabled(w, s, l) && NamesNow(w, s, l, n) && Pub(Ingress, r) in s.stream
    requires l.m.topic == TaskChunk == Route(r) && l.m.env == r && IsIngest(r)
    requires var content := Download(w.backend, s.blobs, r.data.blobURI);
             content.Some? && Named(w, s, l.m, l.a) <= Texts(w, r, content.value)
    ensures NameBooked(w, Next(w, s, l), r, n)
  {
    if OneVersion(Next(w, s, l), r) {
      PiecesKept(w, s, l, r);
      DownloadContent(w, s, r);
      WindowAccounts(w, s, l.m, l.a, r, n.index);
    }
  }

  lemma NamesAccountedNext(w: World, s: State, l: Label)
    requires Sound(w, s) && NamesAccounted(w, s) && Enabled(w, s, l)
    ensures NamesAccounted(w, Next(w, s, l))
  {
    forall n | n in Next(w, s, l).hist.names ensures NameAccounted(w, Next(w, s, l), n) {
      if n in s.hist.names {
        OldNameAccounted(w, s, l, n);
      } else {
        NewNameAccounted(w, s, l, n);
      }
    }
  }

  lemma {:induction false} NamesBalance(w: World, run: seq<Label>)
    requires IsRun(w, run)
    ensures NamesAccounted(w, After(w, run))
  {
    if run != [] {
      var n := |run| - 1;
      NamesBalance(w, run[..n]);
      SoundReachable(w, run[..n]);
      NamesAccountedNext(w, After(w, run[..n]), run[n]);
    }
  }

  lemma NameStored(w: World, s: State, n: Name) returns (r: Root)
    requires NamesAccounted(w, s) && OneVersionEach(s) && LossesOk(w, s) && Quiet(s)
    requires n in s.hist.names && Vectored(w, n)
    ensures NameOf(s, r, n) && StoredAs(w, s, r, n.index, n.id)
  {
    assert NameAccounted(w, s, n);
    r :| NameOf(s, r, n) && NameBooked(w, s, r, n);
    var id := AccountedStored(w, s, r, n.index, Some(n.id));
  }

  lemma SameDocument(s: State, r: Root, q: Root)
    requires DocsOk(s) && Pub(Ingress, r) in s.stream && Pub(Ingress, q) in s.stream
    requires IsIngest(r) && IsIngest(q) && DocOf(r) == DocOf(q)
    ensures r == q
  {
    var a, b := Pub(Ingress, r), Pub(Ingress, q);
    assert IsIngestRoot(a.env) && IsIngestRoot(b.env);
  }

  lemma NamedPieceId(w: World, s: State, n: Name, i: nat)
    requires NamesOk(s) && n in s.hist.names && NameFor(w, s.hist.names, n.docId, i) == n.id
    ensures i == n.index
  {
    assert |n.id| == UUID_LENGTH;
  }

  lemma NameUsedFor(w: World, s: State, n: Name, r: Root, d: Doc, i: nat)
    requires DocsOk(s) && NamesOk(s) && n in s.hist.names && NameOf(s, r, n)
    requires Pub(Ingress, d.root) in s.stream && IsIngest(d.root) && DocOf(d.root) == n.docId
    requires PieceId(d.root, i, NamingOf(w, s.hist.names)) == n.id
    ensures NameFor(w, s.hist.names, n.docId, n.index) == n.id
  {
    SameDocument(s, r, d.root);
    NamedPieceId(w, s, n, i);
  }

  lemma IndexedUnder(w: World, docs: seq<Doc>, name: Naming, t: string, id: string) returns (d: Doc, i: nat)
    requires Has(IndexAll(w, docs, name), t, id)
    ensures d in docs && PieceAt(w, d, name, i, t, id) && IndexAll(w, docs, name)[t][id] == RecordFor(w, d, i)
  {
    IndexAllContents(w, docs, name, t, id);
    var k, j: nat :| 0 <= k < |docs| && PieceAt(w, docs[k], name, j, t, id)
                     && IndexAll(w, docs, name)[t][id] == RecordFor(w, docs[k], j);
    d, i := docs[k], j;
  }

  /** If the index is the sequential one, it holds each window under the one name the indexer uses for it. */
  lemma NameUsed(w: World, s: State, n: Name)
    requires DocsOk(s) && NamesOk(s) && NamesAccounted(w, s) && OneVersionEach(s) && LossesOk(w, s) && Quiet(s)
    requires n in s.hist.names && Vectored(w, n)
    requires s.store == IndexAll(w, Accepted(w, s, s.stream), NamingOf(w, s.hist.names))
    ensures NameFor(w, s.hist.names, n.docId, n.index) == n.id
  {
    var r := NameStored(w, s, n);
    var d, i := IndexedUnder(w, Accepted(w, s, s.stream), NamingOf(w, s.hist.names), r.tenantId, n.id);
    AcceptedMembers(w, s, s.stream, d);
    NameUsedFor(w, s, n, r, d, i);
  }

  lemma UsedNamesOnce(w: World, s: State)
    requires DocsOk(s) && NamesOk(s) && NamesAccounted(w, s) && OneVersionEach(s) && LossesOk(w, s) && Quiet(s)
    requires s.store == IndexAll(w, Accepted(w, s, s.stream), NamingOf(w, s.hist.names))
    ensures NamedOnce(w, s)
  {
    forall a, b | a in s.hist.names && b in s.hist.names && Vectored(w, a) && Vectored(w, b)
                  && a.docId == b.docId && a.index == b.index
      ensures a == b
    {
      NameUsed(w, s, a);
      NameUsed(w, s, b);
    }
  }

  /** In a run that ends quiet, in which no document's URI was given two contents, the index equals the sequential
      indexer's if and only if the chunker sent no window that has a vector in two deliveries. */
  lemma RefinesIffSentOnce(w: World, run: seq<Label>)
    requires IsRun(w, run) && OneVersionEach(After(w, run)) && Quiet(After(w, run))
    ensures var s := After(w, run);
            s.store == IndexAll(w, Accepted(w, s, s.stream), NamingOf(w, s.hist.names)) <==> Distinct(Sendings(w, run))
  {
    var s := After(w, run);
    NamedOnceIffSentOnce(w, run);
    if Distinct(Sendings(w, run)) {
      RefinesSequentialIndexer(w, run);
    }
    if s.store == IndexAll(w, Accepted(w, s, s.stream), NamingOf(w, s.hist.names)) {
      SoundReachable(w, run);
      LossesReachable(w, run);
      NamesBalance(w, run);
      UsedNamesOnce(w, s);
    }
  }
}
