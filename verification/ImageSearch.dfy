/** The top-k an image search asked for does not reach the engine: a run in which it is answered with more. */
module ImageSearch {
  import opened Events
  import opened Text
  import opened Environment
  import opened VectorDB
  import opened Gateway
  import opened Protocol
  import opened Provenance
  import opened Invariant
  import opened Identity
  import opened Ledger
  import opened Refinement
  import opened Linearizability
  import opened Answerability
  import opened Walkthrough

  /** All vectors have the same length. */
  ghost predicate OneDimension(w: World, d: nat) {
    d > 0 && forall t :: |w.vectorise(t)| == d
  }

  /** A short document without a file. */
  predicate DirectRequest(q: IngestRequest) {
    q.tenant != "" && Utf8Size(q.text) <= 65536 && q.file.None? && !("image/" <= q.mime)
  }

  lemma DirectAnnounced(w: World, s: State, q: IngestRequest, n: Names) returns (r: Root)
    requires DirectRequest(q) && FreshId(s, n.docId) && FreshId(s, n.corr) && n.docId != n.corr
    ensures var l := Ingest(q, n, true, true);
            && Enabled(w, s, l) && Emitted(w, s, l) == [Pub(Ingress, r)] && IsIngest(r) && Route(r) == TaskEmbed
            && r.data.documentId == n.docId && r.tenantId == q.tenant
            && Next(w, s, l).hist.versions == s.hist.versions
            && Next(w, s, l).hist.used == s.hist.used + {n.docId, n.corr}
  {
    var l := Ingest(q, n, true, true);
    r := Emitted(w, s, l)[0].env;
    RequestEmits(w, s, l, Pub(Ingress, r));
    VersionsAfter(w, s, l);
  }

  /** A run nothing has gone wrong in, with nothing in flight and nothing uploaded. */
  ghost predicate Calm(w: World, run: seq<Label>) {
    && IsRun(w, run) && Healthy(w, After(w, run)) && Quiet(After(w, run)) && FaultlessRun(run) && Patient(run)
    && After(w, run).hist.versions == {}
  }

  lemma CalmStart(w: World)
    ensures Calm(w, [])
  {
    HealthyStart(w);
  }

  /** One more document, until it is indexed. */
  lemma DirectFinishes(w: World, run: seq<Label>, q: IngestRequest, n: Names) returns (longer: seq<Label>, r: Root)
    requires AlwaysVectors(w) && Calm(w, run) && DirectRequest(q)
    requires FreshId(After(w, run), n.docId) && FreshId(After(w, run), n.corr) && n.docId != n.corr
    ensures Calm(w, longer) && After(w, longer).hist.used <= After(w, run).hist.used + {n.docId, n.corr}
    ensures Pub(Ingress, r) in After(w, longer).stream && IsIngest(r) && Route(r) == TaskEmbed
    ensures r.data.documentId == n.docId && r.tenantId == q.tenant
    ensures Grows(After(w, run), After(w, longer))
  {
    var l := Ingest(q, n, true, true);
    r := DirectAnnounced(w, After(w, run), q, n);
    var more := RequestFinishes(w, run, l, r, []);
    longer := run + [l] + more;
    FaultlessAll(run, l, more);
    NoTimeouts(run, l, more, "");
    Longer(run, l, more);
    ExtensionGrows(w, run, [l] + more);
  }

  lemma Longer(run: seq<Label>, l: Label, more: seq<Label>)
    ensures run + ([l] + more) == run + [l] + more
  {
  }

  /** A document without a file is stored under its own ID. */
  lemma DirectStored(w: World, run: seq<Label>, r: Root)
    requires AlwaysVectors(w) && Calm(w, run)
    requires Pub(Ingress, r) in After(w, run).stream && IsIngest(r) && Route(r) == TaskEmbed
    ensures Has(After(w, run).store, r.tenantId, r.data.documentId)
  {
    LedgerBalances(w, run);
    LossesReachable(w, run);
    assert Pieces(w, After(w, run), r)[0] == DirectText(r);
    var id := PieceStored(w, After(w, run), r, 0);
  }

  /** A stored record has a vector of the one length. */
  lemma StoredDimension(w: World, run: seq<Label>, d: nat, t: string, id: string)
    requires IsRun(w, run) && OneDimension(w, d) && Has(After(w, run).store, t, id)
    ensures |After(w, run).store[t][id].vector| == d
  {
    StoreOkReachable(w, run);
    var x :| StoredFrom(w, After(w, run), t, id, x);
  }

  lemma CalledWasDrawn(w: World, run: seq<Label>, corr: string)
    requires IsRun(w, run) && corr in After(w, run).calls
    ensures corr in After(w, run).hist.used
  {
    CallsReachable(w, run);
    UniqueReachable(w, run);
    var s := After(w, run);
    assert CallOk(s, corr, s.calls[corr]);
    var r :| IsSearchRoot(r) && Pub(Ingress, r) in s.stream && r.correlationId == corr;
    assert IsSearchRoot(Pub(Ingress, r).env);
  }

  /** The step at which a record was in the index, and a later one with no restart in between. */
  lemma StillStored(w: World, run: seq<Label>, d: nat, j: nat, i: nat, t: string, id: string)
    requires IsRun(w, run) && j <= i <= |run| && FaultlessRun(run) && OneDimension(w, d) && |id| == UUID_LENGTH
    requires Has(After(w, run[..j]).store, t, id)
    ensures Has(After(w, run[..i]).store, t, id) && |After(w, run[..i]).store[t][id].vector| == d
  {
    assert NoWipe(run, j, i);
    RecordStays(w, run, j, i, t, id);
    RunPrefix(w, run, i);
    StoredDimension(w, run[..i], d, t, id);
  }

  lemma TwoCandidates(slice: map<string, Record>, q: Vector, a: string, b: string)
    requires a in Candidates(slice, q) && b in Candidates(slice, q) && a != b
    ensures |Candidates(slice, q)| >= 2
  {
    assert |{a, b}| == 2;
    SubsetSize({a, b}, Candidates(slice, q));
  }

  /** An image search made when two records are stored returns two at least, if nothing goes wrong. */
  lemma TwoReturned(w: World, run: seq<Label>, d: nat, j: nat, n: nat, a: string, b: string)
    requires IsRun(w, run) && j < n < |run| && FaultlessRun(run) && OneDimension(w, d)
    requires run[j].Search? && "image/" <= run[j].s.mime
    requires run[n].Return? && run[n].corr == run[j].corr && run[n].tenant == run[j].s.tenant
    requires |a| == |b| == UUID_LENGTH && a != b
    requires Has(After(w, run[..j]).store, run[n].tenant, a) && Has(After(w, run[..j]).store, run[n].tenant, b)
    ensures |run[n].results| >= 2
  {
    var k, i, x := ReturnedCount(w, run, n);
    SameCall(w, run, k, j);
    StillStored(w, run, d, j, i, run[n].tenant, a);
    StillStored(w, run, d, j, i, run[n].tenant, b);
    TwoCandidates(Slice(After(w, run[..i]).store, run[n].tenant), w.vectorise(TextOf(w, x)), a, b);
  }

  /** Two documents of one tenant, both indexed. */
  lemma TwoDocuments(w: World, q1: IngestRequest, n1: Names, q2: IngestRequest, n2: Names) returns (run: seq<Label>)
    requires AlwaysVectors(w) && DirectRequest(q1) && DirectRequest(q2) && NamesGood(n1) && NamesGood(n2)
    requires {n1.docId, n1.corr} !! {n2.docId, n2.corr}
    ensures Calm(w, run) && After(w, run).hist.used <= {n1.docId, n1.corr, n2.docId, n2.corr}
    ensures Has(After(w, run).store, q1.tenant, n1.docId) && Has(After(w, run).store, q2.tenant, n2.docId)
  {
    CalmStart(w);
    var r1, r2;
    run, r1 := DirectFinishes(w, [], q1, n1);
    run, r2 := DirectFinishes(w, run, q2, n2);
    DirectStored(w, run, r1);
    DirectStored(w, run, r2);
  }

  /** A search returns after it was made, to the tenant that made it. */
  lemma ReturnOf(w: World, run: seq<Label>, j: nat) returns (n: nat)
    requires IsRun(w, run) && j < |run| && run[j].Search? && Returned(run, run[j].corr)
    ensures j < n < |run| && run[n].Return? && run[n].corr == run[j].corr && run[n].tenant == run[j].s.tenant
  {
    n :| n < |run| && run[n].Return? && run[n].corr == run[j].corr;
    var k, i, x := SearchLinearizable(w, run, n);
    SameCall(w, run, k, j);
  }

  lemma OneAsked(w: World, d: nat, two: seq<Label>, a: string, b: string, q: SearchRequest, corr: string)
    returns (run: seq<Label>, n: nat)
    requires Calm(w, two) && OneDimension(w, d) && FreshId(After(w, two), corr) && ImageRequest(q)
    requires |a| == |b| == UUID_LENGTH && a != b
    requires Has(After(w, two).store, q.tenant, a) && Has(After(w, two).store, q.tenant, b)
    ensures IsRun(w, run) && FaultlessRun(run) && |two| < n < |run| && run[|two|] == Search(q, corr, true, true)
    ensures run[n].Return? && run[n].corr == corr && |run[n].results| >= 2
  {
    if corr in After(w, two).calls {
      CalledWasDrawn(w, two, corr);
    }
    var l := Search(q, corr, true, true);
    var r := ImageAnnounced(w, After(w, two), q, corr);
    var more := SearchFinishes(w, two, l, r);
    run := two + [l] + more;
    BeginsWith(two, l, more);
    n := ReturnOf(w, run, |two|);
    TwoReturned(w, run, d, |two|, n, a, b);
  }

  lemma BeginsWith(two: seq<Label>, l: Label, more: seq<Label>)
    ensures (two + [l] + more)[..|two|] == two && (two + [l] + more)[|two|] == l
  {
  }

  /** The requested top-k is lost: a run without faults in which a search asks for the one record closest to an image
      and is handed two or more. */
  lemma TopKIsLost(w: World, d: nat, q1: IngestRequest, n1: Names, q2: IngestRequest, n2: Names, q: SearchRequest,
                   corr: string)
    returns (run: seq<Label>, j: nat, n: nat)
    requires OneDimension(w, d) && DirectRequest(q1) && DirectRequest(q2) && NamesGood(n1) && NamesGood(n2)
    requires {n1.docId, n1.corr} !! {n2.docId, n2.corr} !! {corr} && |corr| == UUID_LENGTH
    requires ImageRequest(q) && q.topK == 1 && q1.tenant == q2.tenant == q.tenant
    ensures IsRun(w, run) && FaultlessRun(run) && j < n < |run| && run[j] == Search(q, corr, true, true)
    ensures run[n].Return? && run[n].corr == corr && |run[n].results| > q.topK
  {
    var two := TwoDocuments(w, q1, n1, q2, n2);
    j := |two|;
    run, n := OneAsked(w, d, two, n1.docId, n2.docId, q, corr);
  }
}
