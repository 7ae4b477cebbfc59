/** Where duplicates come from. The router and the chunker pass a document on, and only when one of them has done its
    work and the message comes back all the same can a window be sent twice. */
module Echoes {
  import opened Wrappers
  import opened Events
  import opened Bus
  import opened Environment
  import opened Protocol
  import opened Provenance
  import opened Invariant
  import opened Identity
  import opened Ledger
  import opened Refinement
  import opened Duplication
  import opened Termination
  import opened Completion

  /** The router or the chunker did its work, or the chunker part of it, and its settlement is lost. */
  predicate Echoing(l: Label) {
    && l.Deliver?
    && match l.m.topic
       case Ingress => !l.a.crashed && !l.a.settleOk
       case TaskChunk => if l.a.crashed then l.a.cut > 0 else !l.a.settleOk
       case _ => false
  }

  /** The messages that can still bring document r to the chunker. */
  function Ticket(r: Root): Msg -> nat {
    (m: Msg) => if m.env == r && (m.topic == Ingress || m.topic == TaskChunk) then 1 else 0
  }

  /** The chunker has named a window of the document. */
  ghost predicate Chunked(s: State, r: Root) {
    exists n :: n in s.hist.names && n.docId == DocOf(r)
  }

  ghost predicate OnceFor(s: State, r: Root) {
    Total(Ticket(r), s.pending) <= if Chunked(s, r) then 0 else 1
  }

  /** Each document is on its way to the chunker once, or was there and is not on its way any more. */
  ghost predicate Once(s: State) {
    forall r: Root | OnStream(s, r) && IsIngest(r) :: OnceFor(s, r)
  }

  // Deliveries.

  lemma TotalAfterDelivery(f: Msg -> nat, w: World, s: State, m: Msg, a: Answers)
    requires m in s.pending && (m.left > 1 ==> f(m.(left := m.left - 1)) == f(m))
    ensures var r := React(w, s, m, a);
            Total(f, Next(w, s, Deliver(m, a)).pending) <=
            Total(f, s.pending) + Sum(f, r.emits) - f(m) + if Settled(r, a) == Some(Acked) then 0 else f(m)
  {
    var r := React(w, s, m, a);
    DeliveredPending(w, s, m, a);
    TotalWithArrivals(f, s.pending, r.emits);
    WantsAfter(f, s.pending + Arrivals(r.emits), m, Settled(r, a));
  }

  /** Only a delivery of its own announcement passes a document on. */
  lemma OthersEmitNoTicket(w: World, s: State, m: Msg, a: Answers, r: Root)
    requires Inv(w, s) && m in s.pending && (m.env != r || m.topic != Ingress)
    ensures Sum(Ticket(r), React(w, s, m, a).emits) == 0
  {
    forall p | p in React(w, s, m, a).emits && p.topic != Dlq ensures Ticket(r)(Msg(p.topic, p.env, MAX_DELIVER)) == 0 {
      if p.env == r {
        DeliverEmitsRoot(w, s, m, a, p);
      }
    }
    SumZero(Ticket(r), React(w, s, m, a).emits);
  }

  lemma RouterTickets(w: World, s: State, m: Msg, a: Answers, r: Root)
    requires m.topic == Ingress && m.env == r && !Echoing(Deliver(m, a))
    ensures Sum(Ticket(r), React(w, s, m, a).emits) <= 1
    ensures Settled(React(w, s, m, a), a) != Some(Acked) ==> React(w, s, m, a).emits == []
  {
    ClassifyAt(w, Src(AtRoot, r, "", 0, ""));
    SumOne(Ticket(r), Pub(Route(r), r));
  }

  lemma NamesKept(w: World, s: State, m: Msg, a: Answers)
    requires Named(w, s, m, a) == []
    ensures Next(w, s, Deliver(m, a)).hist.names == s.hist.names
  {
  }

  lemma ChunkerSettles(w: World, s: State, m: Msg, a: Answers, r: Root)
    requires m.topic == TaskChunk && m.env == r && Named(w, s, m, a) != [] && !Echoing(Deliver(m, a))
    ensures Settled(React(w, s, m, a), a) == Some(Acked)
  {
  }

  lemma NewlyNamed(w: World, s: State, m: Msg, a: Answers, n: Name)
    requires n in Next(w, s, Deliver(m, a)).hist.names && n !in s.hist.names
    ensures m.topic == TaskChunk && m.env.typ == IngestRequested && Named(w, s, m, a) != []
    ensures n.docId == DecodeIngest(m.env.data).documentId
  {
  }

  lemma DocumentOfMessage(w: World, s: State, m: Msg, r: Root)
    requires Inv(w, s) && DocsOk(s) && m in s.pending && m.topic == TaskChunk && m.env.typ == IngestRequested
    requires OnStream(s, r) && IsIngest(r) && DecodeIngest(m.env.data).documentId == DocOf(r)
    ensures m.env == r
  {
    var x := PlaceOf(w, s, m);
    RootOfChunk(w, m, x);
    SameDoc(s, Pub(m.topic, m.env), r);
  }

  lemma SameDoc(s: State, p: Pub, r: Root)
    requires DocsOk(s) && p in s.stream && IsIngestRoot(p.env) && OnStream(s, r) && IsIngest(r)
    requires p.env.data.documentId == DocOf(r)
    ensures p.env == r
  {
    var q :| q in s.stream && q.env == r;
    assert IsIngestRoot(q.env);
  }

  lemma NewlyChunked(w: World, s: State, m: Msg, a: Answers, r: Root)
    requires Inv(w, s) && DocsOk(s) && m in s.pending && OnStream(s, r) && IsIngest(r)
    requires Chunked(Next(w, s, Deliver(m, a)), r) && !Chunked(s, r)
    ensures m.topic == TaskChunk && m.env == r && Named(w, s, m, a) != []
  {
    var n :| n in Next(w, s, Deliver(m, a)).hist.names && n.docId == DocOf(r);
    NewlyNamed(w, s, m, a, n);
    DocumentOfMessage(w, s, m, r);
  }

  lemma StillChunked(w: World, s: State, l: Label, r: Root)
    requires Chunked(s, r)
    ensures Chunked(Next(w, s, l), r)
  {
    NextGrows(w, s, l);
  }

  lemma OnceAfterRouter(w: World, s: State, m: Msg, a: Answers, r: Root)
    requires m in s.pending && !Echoing(Deliver(m, a)) && m.topic == Ingress && m.env == r && OnceFor(s, r)
    ensures OnceFor(Next(w, s, Deliver(m, a)), r)
  {
    TotalAfterDelivery(Ticket(r), w, s, m, a);
    RouterTickets(w, s, m, a, r);
    NamesKept(w, s, m, a);
  }

  lemma NoTicketGained(w: World, s: State, m: Msg, a: Answers, r: Root)
    requires Inv(w, s) && m in s.pending && (m.env != r || m.topic != Ingress)
    ensures Total(Ticket(r), Next(w, s, Deliver(m, a)).pending) <= Total(Ticket(r), s.pending)
    ensures Settled(React(w, s, m, a), a) == Some(Acked) ==>
              Total(Ticket(r), Next(w, s, Deliver(m, a)).pending) <= Total(Ticket(r), s.pending) - Ticket(r)(m)
  {
    TotalAfterDelivery(Ticket(r), w, s, m, a);
    OthersEmitNoTicket(w, s, m, a, r);
  }

  lemma OnceAfterOther(w: World, s: State, m: Msg, a: Answers, r: Root)
    requires Inv(w, s) && DocsOk(s) && m in s.pending && !Echoing(Deliver(m, a)) && (m.env != r || m.topic != Ingress)
    requires OnStream(s, r) && IsIngest(r) && OnceFor(s, r)
    ensures OnceFor(Next(w, s, Deliver(m, a)), r)
  {
    NoTicketGained(w, s, m, a, r);
    if Chunked(s, r) {
      StillChunked(w, s, Deliver(m, a), r);
    } else if Chunked(Next(w, s, Deliver(m, a)), r) {
      NewlyChunked(w, s, m, a, r);
      ChunkerSettles(w, s, m, a, r);
    }
  }

  lemma OnceAfterDelivery(w: World, s: State, m: Msg, a: Answers, r: Root)
    requires Inv(w, s) && DocsOk(s) && m in s.pending && !Echoing(Deliver(m, a))
    requires OnStream(s, r) && IsIngest(r) && OnceFor(s, r)
    ensures OnceFor(Next(w, s, Deliver(m, a)), r)
  {
    if m.topic == Ingress && m.env == r {
      OnceAfterRouter(w, s, m, a, r);
    } else {
      OnceAfterOther(w, s, m, a, r);
    }
  }

  // Requests and the rest.

  lemma NoTicketYet(w: World, s: State, r: Root)
    requires Inv(w, s) && !OnStream(s, r)
    ensures Total(Ticket(r), s.pending) == 0
  {
    forall m | m in s.pending ensures Ticket(r)(m) == 0 {
      assert Pub(m.topic, m.env) in s.stream;
    }
    TotalZero(Ticket(r), s.pending);
  }

  lemma OneTicket(r: Root, ms: multiset<Msg>, p: Pub)
    requires p.topic == Ingress
    ensures Total(Ticket(r), ms + Arrivals([p])) == Total(Ticket(r), ms) + if p.env == r then 1 else 0
  {
    TotalWithArrivals(Ticket(r), ms, [p]);
    SumOne(Ticket(r), p);
  }

  /** A name belongs to a document that was announced. */
  ghost predicate DocsUsed(s: State) {
    forall n | n in s.hist.names :: n.docId in s.hist.used
  }

  lemma DocsUsedReachable(w: World, run: seq<Label>)
    requires IsRun(w, run)
    ensures DocsUsed(After(w, run))
  {
    var s := After(w, run);
    NamesBalance(w, run);
    UniqueReachable(w, run);
    forall n | n in s.hist.names ensures n.docId in s.hist.used {
      var r: Root :| NameOf(s, r, n) && NameBooked(w, s, r, n);
      assert IsIngestRoot(Pub(Ingress, r).env);
    }
  }

  lemma FirstOnce(w: World, s: State, l: Label, r: Root)
    requires Inv(w, s) && DocsUsed(s) && Enabled(w, s, l) && IsIngest(r)
    requires !OnStream(s, r) && OnStream(Next(w, s, l), r)
    ensures OnceFor(Next(w, s, l), r)
  {
    var p :| p in Next(w, s, l).stream && p.env == r;
    assert forall q | q in s.stream :: q.env != r;
    NewRoot(w, s, l, p);
    RequestEmits(w, s, l, p);
    PendingAfterRequest(w, s, l);
    NoTicketYet(w, s, r);
    OneTicket(r, s.pending, p);
    NamesUntouched(w, s, l);
  }

  lemma NamesUntouched(w: World, s: State, l: Label)
    requires !l.Deliver?
    ensures Next(w, s, l).hist.names == s.hist.names
  {
  }

  /** A request queues nothing of a document announced before. */
  lemma RequestQueues(w: World, s: State, l: Label, r: Root)
    requires Inv(w, s) && DocsOk(s) && Enabled(w, s, l) && !l.Deliver? && OnStream(s, r) && IsIngest(r)
    ensures Total(Ticket(r), Next(w, s, l).pending) == Total(Ticket(r), s.pending)
  {
    PendingAfterRequest(w, s, l);
    TotalWithArrivals(Ticket(r), s.pending, Emitted(w, s, l));
    forall p | p in Emitted(w, s, l) ensures p.env != r {
      RequestOfAnother(w, s, l, r, p);
    }
    SumZero(Ticket(r), Emitted(w, s, l));
  }

  lemma RequestOfAnother(w: World, s: State, l: Label, r: Root, p: Pub)
    requires DocsOk(s) && Enabled(w, s, l) && !l.Deliver? && OnStream(s, r) && IsIngest(r) && p in Emitted(w, s, l)
    ensures p.env != r
  {
    RequestEmits(w, s, l, p);
    DocInUse(s, r);
  }

  lemma DocInUse(s: State, r: Root)
    requires DocsOk(s) && OnStream(s, r) && IsIngest(r)
    ensures r.data.documentId in s.hist.used
  {
    var q :| q in s.stream && q.env == r;
    assert IsIngestRoot(q.env);
  }

  lemma OnceNext(w: World, s: State, l: Label)
    requires Inv(w, s) && Unique(s) && DocsUsed(s) && Once(s) && Enabled(w, s, l) && !Echoing(l)
    ensures Once(Next(w, s, l))
  {
    forall r: Root | OnStream(Next(w, s, l), r) && IsIngest(r) ensures OnceFor(Next(w, s, l), r) {
      if !OnStream(s, r) {
        FirstOnce(w, s, l, r);
      } else {
        assert OnceFor(s, r);
        if l.Deliver? {
          OnceAfterDelivery(w, s, l.m, l.a, r);
        } else {
          RequestQueues(w, s, l, r);
          NamesUntouched(w, s, l);
        }
      }
    }
  }

  // Runs.

  /** No settlement of the router or the chunker is lost after it did its work. */
  ghost predicate EchoFree(run: seq<Label>) {
    forall i | 0 <= i < |run| :: !Echoing(run[i])
  }

  lemma {:induction false} OnceReachable(w: World, run: seq<Label>)
    requires IsRun(w, run) && EchoFree(run)
    ensures Once(After(w, run))
  {
    if run != [] {
      var n := |run| - 1;
      EchoFreeInit(run);
      OnceReachable(w, run[..n]);
      UniqueReachable(w, run[..n]);
      DocsUsedReachable(w, run[..n]);
      OnceNext(w, After(w, run[..n]), run[n]);
    }
  }

  lemma EchoFreeInit(run: seq<Label>)
    requires run != [] && EchoFree(run)
    ensures EchoFree(run[..|run| - 1])
  {
  }

  /** What the chunker sends now it has not named before. */
  lemma SentFirst(w: World, s: State, l: Label, x: Window)
    requires Inv(w, s) && Unique(s) && Once(s) && Enabled(w, s, l) && x in SentBy(w, s, l)
    ensures !HasName(w, s, x)
  {
    SentNamed(w, s, l, x);
    var r := TicketHeld(w, s, l.m);
    assert OnceFor(s, r);
  }

  lemma TicketHeld(w: World, s: State, m: Msg) returns (r: Root)
    requires Inv(w, s) && m in s.pending && m.topic == TaskChunk && m.env.typ == IngestRequested
    ensures m.env == r && IsIngest(r) && OnStream(s, r) && Total(Ticket(r), s.pending) >= 1
  {
    var y := PlaceOf(w, s, m);
    RootOfChunk(w, m, y);
    r := y.root;
    TotalRemove(Ticket(r), s.pending, m);
  }

  lemma {:induction false} NamedOnceReachable(w: World, run: seq<Label>)
    requires IsRun(w, run) && EchoFree(run)
    ensures NamedOnce(w, After(w, run))
  {
    if run != [] {
      var n := |run| - 1;
      EchoFreeInit(run);
      NamedOnceReachable(w, run[..n]);
      OnceReachable(w, run[..n]);
      UniqueReachable(w, run[..n]);
      forall x | x in SentBy(w, After(w, run[..n]), run[n]) ensures !HasName(w, After(w, run[..n]), x) {
        SentFirst(w, After(w, run[..n]), run[n], x);
      }
      NamedOnceNext(w, After(w, run[..n]), run[n]);
    }
  }

  /** Whatever else fails, crashes or is redelivered, no window is sent twice unless a settlement of the router or the
      chunker is lost after it did its work, or the chunker dies having sent some windows. */
  lemma SentOnceUnlessEchoed(w: World, run: seq<Label>)
    requires IsRun(w, run) && EchoFree(run)
    ensures Distinct(Sendings(w, run))
  {
    NamedOnceReachable(w, run);
    NamedOnceIffSentOnce(w, run);
  }

  /** So a run without echoes that ends quiet ends with the sequential indexer's index. */
  lemma RefinesWithoutEchoes(w: World, run: seq<Label>)
    requires IsRun(w, run) && EchoFree(run) && Quiet(After(w, run)) && OneVersionEach(After(w, run))
    ensures var s := After(w, run); s.store == IndexAll(w, Accepted(w, s, s.stream), NamingOf(w, s.hist.names))
  {
    SentOnceUnlessEchoed(w, run);
    RefinesSequentialIndexer(w, run);
  }
}
