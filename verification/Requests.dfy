/** What callers ask for, in the terms of the call alone: which requests go through, what they announce, and which of
    the three routes they take. No definition here refers to how the gateway or the router decide. */
module Requests {
  import opened Events
  import opened Text
  import opened Blobs
  import opened Environment
  import opened Gateway
  import opened Protocol
  import opened Provenance
  import opened Invariant

  // Strings.

  predicate IsImage(mime: string) {
    |mime| >= 6 && mime[..6] == "image/"
  }

  predicate IsText(mime: string) {
    exists i | 0 <= i <= |mime| :: "text/" <= mime[i..]
  }

  function Address(b: Backend, tenant: string, name: string): string {
    match b
    case Memory => "memory://" + tenant + "/" + name
    case S3(bucket) => "s3://" + bucket + "/" + tenant + "/" + name
  }

  // Ingests.

  /** The text is too large for the bus. */
  predicate Offloaded(q: IngestRequest) {
    Utf8Size(q.text) > 65536
  }

  /** A file comes along, and is kept. */
  predicate WithFile(q: IngestRequest) {
    !Offloaded(q) && q.file.Some? && q.size > 0
  }

  predicate Uploads(q: IngestRequest) {
    Offloaded(q) || WithFile(q)
  }

  function NameOfUpload(q: IngestRequest, n: Names): string {
    if Offloaded(q) then "auto_context_" + n.suffix + ".txt" else q.filename
  }

  function ContentOf(q: IngestRequest): string
    requires Uploads(q)
  {
    if Offloaded(q) then q.text else q.file.value
  }

  function UriOf(b: Backend, q: IngestRequest, n: Names): string {
    if Uploads(q) then Address(b, q.tenant, NameOfUpload(q, n)) else ""
  }

  function MimeOf(q: IngestRequest): string {
    if Offloaded(q) then "text/plain" else q.mime
  }

  predicate IngestGoesThrough(l: Label) {
    l.Ingest? && l.q.tenant != "" && l.pubOk && (Uploads(l.q) ==> l.upOk)
  }

  function IngestAnnouncement(b: Backend, q: IngestRequest, n: Names): Envelope {
    Envelope(if q.corr == "" then n.corr else q.corr, q.tenant, IngestRequested, "gateway",
             IngestPayload(n.docId, if Offloaded(q) then "" else q.text, UriOf(b, q, n), MimeOf(q),
                           if Offloaded(q) then 0 else q.size))
  }

  lemma AddressIsUri(b: Backend, tenant: string, name: string)
    ensures Uri(b, tenant, name) == Address(b, tenant, name) != ""
  {
    match b
    case Memory => assert "memory://" + (tenant + "/" + name) == "memory://" + tenant + "/" + name;
    case S3(bucket) =>
      assert "s3://" + bucket + "/" + (tenant + "/" + name) == "s3://" + bucket + "/" + tenant + "/" + name;
  }

  /** An ingest is announced exactly if it goes through, and then with its text, file and type. */
  lemma IngestAnnounces(w: World, s: State, l: Label)
    requires l.Ingest?
    ensures Emitted(w, s, l) ==
            if IngestGoesThrough(l) then [Pub(Ingress, IngestAnnouncement(w.backend, l.q, l.n))] else []
    ensures IngestGoesThrough(l) ==>
              UploadsOf(w, l).1 == if Uploads(l.q) then [Upload(NameOfUpload(l.q, l.n), ContentOf(l.q))] else []
  {
    AddressIsUri(w.backend, l.q.tenant, NameOfUpload(l.q, l.n));
  }

  // Searches.

  predicate QueryHasFile(q: SearchRequest) {
    q.file.Some? && q.size > 0
  }

  function QueryUri(b: Backend, q: SearchRequest): string {
    if QueryHasFile(q) then Address(b, q.tenant, q.filename) else ""
  }

  predicate SearchGoesThrough(l: Label) {
    l.Search? && l.s.tenant != "" && l.pubOk && (QueryHasFile(l.s) ==> l.upOk)
  }

  function SearchAnnouncement(b: Backend, q: SearchRequest, corr: string): Envelope {
    Envelope(corr, q.tenant, SearchRequested, "gateway", SearchPayload(q.query, QueryUri(b, q), q.topK, q.mime))
  }

  /** A search is announced exactly if it goes through, and then with its query, file, type and top-k; and then it waits
      for its reply. */
  lemma SearchAnnounces(w: World, s: State, l: Label)
    requires Enabled(w, s, l) && l.Search?
    ensures Emitted(w, s, l) ==
            if SearchGoesThrough(l) then [Pub(Ingress, SearchAnnouncement(w.backend, l.s, l.corr))] else []
    ensures l.corr in Next(w, s, l).calls <==> SearchGoesThrough(l)
    ensures SearchGoesThrough(l) ==>
              UploadsOf(w, l).1 == if QueryHasFile(l.s) then [Upload(l.s.filename, l.s.file.value)] else []
  {
    AddressIsUri(w.backend, l.s.tenant, l.s.filename);
  }

  // Routes.

  lemma PrefixOfMime(mime: string)
    ensures "image/" <= mime <==> IsImage(mime)
  {
    if IsImage(mime) {
      assert forall i | 0 <= i < 6 :: mime[i] == mime[..6][i];
    }
  }

  lemma ContainsInMime(mime: string)
    ensures Contains(mime, "text/") <==> IsText(mime)
  {
    if i :| 0 <= i <= |mime| && OccursAt(mime, "text/", i) {
      assert mime[i..][..5] == mime[i..i + 5];
    }
    if i :| 0 <= i <= |mime| && "text/" <= mime[i..] {
      assert mime[i..][..5] == mime[i..i + 5];
      assert OccursAt(mime, "text/", i);
    }
  }

  /** The three routes: images to the describer; of the rest, a file of a text type to the chunker; and everything else
      to the embedder at once. */
  lemma RouteByType(r: Root)
    ensures Route(r) == if IsImage(r.data.mimeType) then TaskVision
                        else if r.data.blobURI != "" && IsText(r.data.mimeType) then TaskChunk
                        else TaskEmbed
  {
    PrefixOfMime(r.data.mimeType);
    ContainsInMime(r.data.mimeType);
  }
}
