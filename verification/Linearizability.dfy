/** Searches: every result a caller gets is a top-k of its tenant's slice at one moment of its call. */
module Linearizability {
  import opened Wrappers
  import opened Events
  import opened Text
  import opened Bus
  import opened Environment
  import opened VectorDB
  import opened Gateway
  import opened Protocol
  import opened Provenance
  import opened Invariant
  import opened Identity
  import opened Ledger
  import Cosine
  import Chunker
  import Engine

  /** The query of an accepted search: its text, or the description of its image. */
  ghost predicate AnswersSource(w: World, s: State, x: Src, results: seq<SearchResult>) {
    Engine.IsAnswer(w.sqrt, s.store, x.root.tenantId, w.vectorise(TextOf(w, x)),
                    Engine.EffectiveTopK(CarriedTopK(x.root)), results)
  }

  /** The reply was computed from the index as it stood after i steps. */
  ghost predicate ComputedAt(w: World, run: seq<Label>, p: Pub, i: nat, x: Src) {
    && i < |run| && ReplyOk(w, After(w, run[..i]), p, x)
    && AnswersSource(w, After(w, run[..i]), x, p.env.data.results)
  }

  lemma EngineReplies(w: World, s: State, m: Msg, a: Answers, x: Src, p: Pub)
    requires Enabled(w, s, Deliver(m, a)) && m.topic == TaskEngine == Target(x)
    requires ValidSrc(w, s, x) && m.env == EnvOf(w, x) && p in React(w, s, m, a).emits
    ensures ReplyOk(w, s, p, x) && AnswersSource(w, s, x, p.env.data.results)
  {
    EngineAt(w, s, x, a);
    assert Engine.AnswersEnvelope(w.sqrt, s.store, m.env, a.results);
  }

  /** Only the engine publishes on reply topics. */
  lemma ReplyFromEngine(w: World, s: State, m: Msg, a: Answers, x: Src, p: Pub)
    requires Inv(w, s) && ValidSrc(w, s, x) && m.env == EnvOf(w, x) && TopicOk(m.topic, x)
    requires p in React(w, s, m, a).emits && p.topic.Reply?
    ensures m.topic == TaskEngine
  {
    match m.topic
    case Ingress => ClassifyAt(w, x);
    case TaskEmbed => EmbedAt(w, s, x, a);
    case TaskVision => VisionAt(w, s, x, a);
    case TaskChunk => ChunkerOnIngress(w, s, m, a, p);
    case _ =>
  }

  lemma ChunkerOnIngress(w: World, s: State, m: Msg, a: Answers, p: Pub)
    requires m.topic == TaskChunk && p in React(w, s, m, a).emits
    ensures p.topic == Ingress
  {
    var all := Chunker.Texts(w.backend, s.blobs, m.env);
    Chunker.EmitsMembers(m.env, all[..a.Reached(|all|)], a, p);
  }

  lemma ReplyComputedNow(w: World, s: State, l: Label, p: Pub) returns (x: Src)
    requires Inv(w, s) && Enabled(w, s, l) && p in Emitted(w, s, l) && p.topic.Reply?
    ensures ReplyOk(w, s, p, x) && AnswersSource(w, s, x, p.env.data.results)
  {
    FreshReply(w, s, l, p);
    RepliesEmitNothing(w, s, l.m, l.a);
    x := PlaceOf(w, s, l.m);
    ReplyFromEngine(w, s, l.m, l.a, x, p);
    CarrierTopic(w, s, l.m, x);
    EngineReplies(w, s, l.m, l.a, x, p);
  }

  lemma LastStep(w: World, run: seq<Label>, p: Pub)
    requires IsRun(w, run) && p in After(w, run).stream
    ensures run != [] && IsRun(w, run[..|run| - 1])
    ensures var s, l := After(w, run[..|run| - 1]), run[|run| - 1];
            Inv(w, s) && Enabled(w, s, l) && (p in s.stream || p in Emitted(w, s, l))
  {
    var n := |run| - 1;
    InvReachable(w, run[..n]);
    StreamAfter(w, After(w, run[..n]), run[n]);
  }

  lemma ComputedExtends(w: World, run: seq<Label>, n: nat, p: Pub, i: nat, x: Src)
    requires n <= |run| && ComputedAt(w, run[..n], p, i, x)
    ensures ComputedAt(w, run, p, i, x)
  {
    assert run[..n][..i] == run[..i];
  }

  lemma {:induction false} RepliesComputed(w: World, run: seq<Label>, p: Pub) returns (i: nat, x: Src)
    requires IsRun(w, run) && p in After(w, run).stream && p.topic.Reply?
    ensures ComputedAt(w, run, p, i, x)
  {
    LastStep(w, run, p);
    var n := |run| - 1;
    if p in After(w, run[..n]).stream {
      i, x := RepliesComputed(w, run[..n], p);
      ComputedExtends(w, run, n, p, i, x);
    } else {
      i := n;
      x := ReplyComputedNow(w, After(w, run[..n]), run[n], p);
    }
  }

  lemma FreshReply(w: World, s: State, l: Label, p: Pub)
    requires Enabled(w, s, l) && p in Emitted(w, s, l) && p.topic.Reply?
    ensures l.Deliver? && p in React(w, s, l.m, l.a).emits && l.m in s.pending
  {
    if l.Ingest? || l.Search? { RequestEmits(w, s, l, p); }
  }

  /** Step j of the run is the call that announced the search r. */
  ghost predicate IsCall(w: World, run: seq<Label>, j: nat, r: Root) {
    && j < |run| && run[j].Search? && run[j].corr == r.correlationId && run[j].s.tenant == r.tenantId
    && Emitted(w, After(w, run[..j]), run[j]) == [Pub(Ingress, r)]
  }

  lemma CallExtends(w: World, run: seq<Label>, n: nat, j: nat, r: Root)
    requires n <= |run| && IsCall(w, run[..n], j, r)
    ensures IsCall(w, run, j, r)
  {
    assert run[..n][..j] == run[..j];
  }

  lemma {:induction false} CallOf(w: World, run: seq<Label>, r: Root) returns (j: nat)
    requires IsRun(w, run) && Pub(Ingress, r) in After(w, run).stream && !IsIngest(r)
    ensures IsCall(w, run, j, r)
  {
    LastStep(w, run, Pub(Ingress, r));
    var n := |run| - 1;
    if Pub(Ingress, r) in After(w, run[..n]).stream {
      j := CallOf(w, run[..n], r);
      CallExtends(w, run, n, j, r);
    } else {
      AnnouncedNow(w, After(w, run[..n]), run[n], r);
      j := n;
    }
  }

  lemma AnnouncedNow(w: World, s: State, l: Label, r: Root)
    requires Inv(w, s) && Enabled(w, s, l) && !IsIngest(r)
    requires Pub(Ingress, r) in Emitted(w, s, l) && Pub(Ingress, r) !in s.stream
    ensures l.Search? && l.corr == r.correlationId && l.s.tenant == r.tenantId && Emitted(w, s, l) == [Pub(Ingress, r)]
  {
    var p := Pub(Ingress, r);
    if l.Deliver? {
      DeliverEmitsRoot(w, s, l.m, l.a, p);
    } else {
      RequestEmits(w, s, l, p);
    }
  }

  /** A call holds only a reply published for it, and belongs to the tenant whose search it is. */
  ghost predicate CallOk(s: State, c: string, call: Call) {
    && (call.inbox.Some? ==> Pub(Reply(c), call.inbox.value) in s.stream)
    && exists r :: IsSearchRoot(r) && Pub(Ingress, r) in s.stream && r.correlationId == c && r.tenantId == call.tenant
  }

  ghost predicate CallsOk(s: State) {
    forall c | c in s.calls :: CallOk(s, c, s.calls[c])
  }

  lemma CallOkKept(s: State, s': State, c: string, call: Call)
    requires Grows(s, s') && CallOk(s, c, call)
    ensures CallOk(s', c, call)
  {
    var r :| IsSearchRoot(r) && Pub(Ingress, r) in s.stream && r.correlationId == c && r.tenantId == call.tenant;
    assert Pub(Ingress, r) in s'.stream;
  }

  lemma ReplyInbox(w: World, s: State, m: Msg)
    requires Inv(w, s) && m in s.pending && m.topic.Reply?
    ensures m.topic == Reply(m.env.correlationId) && Pub(m.topic, m.env) in s.stream
  {
    assert PubOk(w, s, Pub(m.topic, m.env));
  }

  /** The waiting calls after a step depend on the calls before it alone. */
  function CallsNext(w: World, calls: Calls, l: Label): Calls {
    match l
    case Ingest(_, _, _, _) => calls
    case Search(q, corr, upOk, pubOk) =>
      if SearchEffect(w.backend, q, corr, upOk, pubOk).ok then calls[corr := Call(q.tenant, None)] else calls
    case Deliver(m, a) => if m.topic.Reply? && !a.crashed then Delivered(calls, m.env) else calls
    case Return(_, corr, _) => calls - {corr}
    case Timeout(_, corr) => calls - {corr}
    case Restart(_, searches, _) => if searches then map[] else calls
  }

  lemma CallsOfNext(w: World, s: State, l: Label)
    ensures Next(w, s, l).calls == CallsNext(w, s.calls, l)
  {
    if l.Deliver? {
      CallsOfDelivery(w, s, l.m, l.a);
    }
  }

  lemma CallsOfDelivery(w: World, s: State, m: Msg, a: Answers)
    ensures Next(w, s, Deliver(m, a)).calls ==
            if m.topic.Reply? && !a.crashed then Delivered(s.calls, m.env) else s.calls
  {
  }

  lemma CallsAfter(w: World, s: State, l: Label, c: string) returns (call: Call)
    requires Inv(w, s) && Enabled(w, s, l) && c in Next(w, s, l).calls
    ensures call == Next(w, s, l).calls[c]
    ensures
      || (c in s.calls && call == s.calls[c])
      || (c in s.calls && call == s.calls[c].(inbox := call.inbox) && call.inbox.Some?
          && Pub(Reply(c), call.inbox.value) in s.stream)
      || (l.Search? && l.corr == c && call == Call(l.s.tenant, None) && Emitted(w, s, l) != [])
  {
    CallsOfNext(w, s, l);
    call := CallsNext(w, s.calls, l)[c];
    if l.Deliver? && l.m.topic.Reply? {
      ReplyInbox(w, s, l.m);
    }
    CallChange(w, s.calls, l, c);
    if l.Search? { SearchEmits(w, s, l); }
  }

  lemma CallChange(w: World, calls: Calls, l: Label, c: string)
    requires c in CallsNext(w, calls, l)
    ensures var call := CallsNext(w, calls, l)[c];
            || (c in calls && call == calls[c])
            || (c in calls && l.Deliver? && l.m.topic.Reply? && l.m.env.correlationId == c
                && call == calls[c].(inbox := Some(l.m.env)))
            || (l.Search? && l.corr == c && call == Call(l.s.tenant, None)
                && SearchEffect(w.backend, l.s, l.corr, l.upOk, l.pubOk).ok)
  {
  }

  lemma SearchEmits(w: World, s: State, l: Label)
    requires l.Search?
    ensures SearchEffect(w.backend, l.s, l.corr, l.upOk, l.pubOk).ok ==> Emitted(w, s, l) != []
  {
  }

  lemma CallsOkNext(w: World, s: State, l: Label)
    requires Inv(w, s) && CallsOk(s) && Enabled(w, s, l)
    ensures CallsOk(Next(w, s, l))
  {
    var s' := Next(w, s, l);
    NextGrows(w, s, l);
    StreamAfter(w, s, l);
    forall c | c in s'.calls ensures CallOk(s', c, s'.calls[c]) {
      var call := CallsAfter(w, s, l, c);
      if c in s.calls && call.tenant == s.calls[c].tenant {
        CallOkKept(s, s', c, s.calls[c]);
      } else {
        var p := Emitted(w, s, l)[0];
        RequestEmits(w, s, l, p);
        assert IsSearchRoot(p.env) && Pub(Ingress, p.env) in s'.stream;
      }
    }
  }

  lemma {:induction false} CallsReachable(w: World, run: seq<Label>)
    requires IsRun(w, run)
    ensures CallsOk(After(w, run))
  {
    if run != [] {
      var n := |run| - 1;
      CallsReachable(w, run[..n]);
      InvReachable(w, run[..n]);
      CallsOkNext(w, After(w, run[..n]), run[n]);
    }
  }

  /** Linearizability. Whatever a search returns at step n is a top-k, in the index as it stood at some step i between
      its call j and its return, of the caller's own tenant, for the caller's query and its effective k. */
  lemma SearchLinearizable(w: World, run: seq<Label>, n: nat) returns (j: nat, i: nat, x: Src)
    requires IsRun(w, run) && n < |run| && run[n].Return?
    ensures j < i <= n && IsCall(w, run, j, x.root) && !IsIngest(x.root) && x.i < |Texts(w, x.root, x.blob)|
    ensures x.stage.AtDone? && x.root.correlationId == run[n].corr && x.root.tenantId == run[n].tenant
    ensures ValidSrc(w, After(w, run[..i]), x) && AnswersSource(w, After(w, run[..i]), x, run[n].results)
  {
    var before := run[..n];
    var p := ReturnedReply(w, run, n);
    i, x := RepliesComputed(w, before, p);
    ComputedExtends(w, run, n, p, i, x);
    RunPrefix(w, run, i);
    j := CallOf(w, run[..i], x.root);
    CallExtends(w, run, i, j, x.root);
    SearchTenant(w, After(w, before), x, run, i, n, run[n].corr);
  }

  /** A return hands over a reply that is on the stream. */
  lemma ReturnedReply(w: World, run: seq<Label>, n: nat) returns (p: Pub)
    requires IsRun(w, run) && n < |run| && run[n].Return?
    ensures IsRun(w, run[..n])
    ensures var s, corr := After(w, run[..n]), run[n].corr;
            && corr in s.calls && s.calls[corr].tenant == run[n].tenant && CallOk(s, corr, s.calls[corr])
            && SearchesOk(s) && p in s.stream && p.topic == Reply(corr) && PubOk(w, s, p)
            && p.env.data.SearchCompletedPayload? && run[n].results == p.env.data.results
  {
    RunPrefix(w, run, n);
    CallsReachable(w, run[..n]);
    UniqueReachable(w, run[..n]);
    p := HeldReply(w, After(w, run[..n]), run[n]);
  }

  lemma HeldReply(w: World, s: State, l: Label) returns (p: Pub)
    requires StreamOk(w, s) && CallsOk(s) && Enabled(w, s, l) && l.Return?
    ensures l.corr in s.calls && s.calls[l.corr].tenant == l.tenant && CallOk(s, l.corr, s.calls[l.corr])
    ensures p in s.stream && p.topic == Reply(l.corr) && PubOk(w, s, p)
    ensures p.env.data.SearchCompletedPayload? && l.results == p.env.data.results
  {
    assert CallOk(s, l.corr, s.calls[l.corr]);
    p := Pub(Reply(l.corr), s.calls[l.corr].inbox.value);
    assert PubOk(w, s, p);
  }

  lemma SearchTenant(w: World, s: State, x: Src, run: seq<Label>, i: nat, n: nat, corr: string)
    requires IsRun(w, run) && i <= n < |run| && s == After(w, run[..n]) && SearchesOk(s) && corr in s.calls
    requires CallOk(s, corr, s.calls[corr])
    requires ValidSrc(w, After(w, run[..i]), x) && !IsIngest(x.root) && x.root.correlationId == corr
    ensures x.root.tenantId == s.calls[corr].tenant
  {
    RunGrows(w, run, i, n);
    var r :| IsSearchRoot(r) && Pub(Ingress, r) in s.stream && r.correlationId == corr
             && r.tenantId == s.calls[corr].tenant;
    var p, q := Pub(Ingress, r), Pub(Ingress, x.root);
    assert IsSearchRoot(q.env) && q in s.stream;
  }

  lemma RunGrows(w: World, run: seq<Label>, i: nat, n: nat)
    requires i <= n <= |run|
    ensures Grows(After(w, run[..i]), After(w, run[..n]))
  {
    assert run[..i] + run[i..n] == run[..n];
    ExtensionGrows(w, run[..i], run[i..n]);
  }

  lemma {:induction false} ExtensionGrows(w: World, run: seq<Label>, more: seq<Label>)
    ensures Grows(After(w, run), After(w, run + more))
  {
    if more == [] {
      assert run + more == run;
    } else {
      var init, l := more[..|more| - 1], more[|more| - 1];
      ExtensionGrows(w, run, init);
      StepGrows(w, run + init, l);
      assert run + more == (run + init) + [l];
      GrowsOn(After(w, run), After(w, run + init), After(w, run + more));
    }
  }

  lemma StepGrows(w: World, run: seq<Label>, l: Label)
    ensures Grows(After(w, run), After(w, run + [l]))
  {
    assert (run + [l])[..|run|] == run;
    NextGrows(w, After(w, run), l);
  }

  lemma GrowsOn(a: State, b: State, c: State)
    requires Grows(a, b) && Grows(b, c)
    ensures Grows(a, c)
  {
  }

  /** The k of a search that can be answered, read off the request itself. */
  function RequestedK(l: Label): nat
    requires l.Search?
  {
    if "image/" <= l.s.mime || l.s.topK <= 0 then 5 else l.s.topK
  }

  lemma CarriedK(w: World, s: State, l: Label, x: Src)
    requires l.Search? && Emitted(w, s, l) == [Pub(Ingress, x.root)] && !IsIngest(x.root)
    requires x.i < |Texts(w, x.root, x.blob)|
    ensures Engine.EffectiveTopK(CarriedTopK(x.root)) == RequestedK(l)
  {
  }

  lemma AnswerCount(w: World, s: State, t: string, q: Vector, k: nat, results: seq<SearchResult>)
    requires Engine.IsAnswer(w.sqrt, s.store, t, q, k, results)
    ensures |results| == Min(k, |Candidates(Slice(s.store, t), q)|)
  {
  }

  /** A search that returns hands back as many results as it asked for, five if it asked for none or came with an image,
      or all there are of its query's dimension if there are fewer. */
  lemma ReturnedCount(w: World, run: seq<Label>, n: nat) returns (j: nat, i: nat, x: Src)
    requires IsRun(w, run) && n < |run| && run[n].Return?
    ensures j < i <= n && IsCall(w, run, j, x.root) && x.root.correlationId == run[n].corr
    ensures ValidSrc(w, After(w, run[..i]), x)
    ensures var q := w.vectorise(TextOf(w, x));
            |run[n].results| ==
            Min(RequestedK(run[j]), |Candidates(Slice(After(w, run[..i]).store, run[n].tenant), q)|)
  {
    j, i, x := SearchLinearizable(w, run, n);
    CountAt(w, After(w, run[..j]), run[j], After(w, run[..i]), x, run[n].results);
  }

  lemma CountAt(w: World, before: State, l: Label, s: State, x: Src, results: seq<SearchResult>)
    requires l.Search? && Emitted(w, before, l) == [Pub(Ingress, x.root)] && !IsIngest(x.root)
    requires x.i < |Texts(w, x.root, x.blob)| && AnswersSource(w, s, x, results)
    ensures |results| ==
            Min(RequestedK(l), |Candidates(Slice(s.store, x.root.tenantId), w.vectorise(TextOf(w, x)))|)
  {
    CarriedK(w, before, l, x);
    AnswerCount(w, s, x.root.tenantId, w.vectorise(TextOf(w, x)), RequestedK(l), results);
  }

  /** A result tells of one stored record, and scores it against the query. */
  ghost predicate TellsOf(w: World, s: State, t: string, q: Vector, r: SearchResult) {
    && Has(s.store, t, r.chunkId)
    && var rec := s.store[t][r.chunkId];
       && r.documentId == rec.docId && r.text == rec.text && r.blobURI == rec.fileURI && r.mimeType == rec.mimeType
       && |rec.vector| == |q| && r.score == Cosine.Similarity(w.sqrt, q, rec.vector)
  }

  lemma AnswerTells(w: World, s: State, t: string, q: Vector, k: nat, results: seq<SearchResult>, r: SearchResult)
    requires Engine.IsAnswer(w.sqrt, s.store, t, q, k, results) && r in results
    ensures TellsOf(w, s, t, q, r)
  {
    var hits :| IsTopK(w.sqrt, Slice(s.store, t), q, k, hits) && results == Engine.AllToTransport(hits);
    var i :| 0 <= i < |results| && results[i] == r;
    assert hits[i] in hits;
  }

  /** The scores a search returns are all in [0, 1] exactly when, in the caller's slice at the step the search was
      computed, the query has no negative dot product with as many records as the search is to return. */
  lemma ReturnedScoresInUnitIff(w: World, run: seq<Label>, n: nat) returns (j: nat, i: nat, x: Src)
    requires IsRun(w, run) && n < |run| && run[n].Return? && Cosine.IsSqrt(w.sqrt)
    ensures j < i <= n && IsCall(w, run, j, x.root) && x.root.correlationId == run[n].corr
    ensures ValidSrc(w, After(w, run[..i]), x)
    ensures var slice, q := Slice(After(w, run[..i]).store, run[n].tenant), w.vectorise(TextOf(w, x));
            (forall r | r in run[n].results :: 0.0 <= r.score <= 1.0) <==>
            Min(RequestedK(run[j]), |Candidates(slice, q)|) <= |Agreeing(slice, q)|
  {
    j, i, x := SearchLinearizable(w, run, n);
    ScoresAt(w, After(w, run[..j]), run[j], After(w, run[..i]), x, run[n].results);
  }

  lemma ScoresAt(w: World, before: State, l: Label, s: State, x: Src, results: seq<SearchResult>)
    requires l.Search? && Emitted(w, before, l) == [Pub(Ingress, x.root)] && !IsIngest(x.root)
    requires x.i < |Texts(w, x.root, x.blob)| && AnswersSource(w, s, x, results) && Cosine.IsSqrt(w.sqrt)
    ensures var slice, q := Slice(s.store, x.root.tenantId), w.vectorise(TextOf(w, x));
            (forall r | r in results :: 0.0 <= r.score <= 1.0) <==>
            Min(RequestedK(l), |Candidates(slice, q)|) <= |Agreeing(slice, q)|
  {
    CarriedK(w, before, l, x);
    AnswerScores(w, s, x.root.tenantId, w.vectorise(TextOf(w, x)), RequestedK(l), results);
  }

  lemma AnswerScores(w: World, s: State, t: string, q: Vector, k: nat, results: seq<SearchResult>)
    requires Engine.IsAnswer(w.sqrt, s.store, t, q, k, results) && Cosine.IsSqrt(w.sqrt)
    ensures (forall r | r in results :: 0.0 <= r.score <= 1.0) <==>
            Min(k, |Candidates(Slice(s.store, t), q)|) <= |Agreeing(Slice(s.store, t), q)|
  {
    var hits :| IsTopK(w.sqrt, Slice(s.store, t), q, k, hits) && results == Engine.AllToTransport(hits);
    ScoresInUnitIff(w.sqrt, Slice(s.store, t), q, k, hits);
    SameScores(hits, results);
  }

  lemma SameScores(hits: seq<Hit>, results: seq<SearchResult>)
    requires results == Engine.AllToTransport(hits)
    ensures (forall r | r in results :: 0.0 <= r.score <= 1.0) <==> forall h | h in hits :: 0.0 <= h.score <= 1.0
  {
    if forall r | r in results :: 0.0 <= r.score <= 1.0 {
      forall i | 0 <= i < |hits| ensures 0.0 <= hits[i].score <= 1.0 {
        assert results[i] in results;
      }
    } else {
      var i :| 0 <= i < |results| && !(0.0 <= results[i].score <= 1.0);
      assert hits[i] in hits;
    }
  }

  /** Whatever a search returns tells of records of the caller's own tenant, each a piece of a document that very tenant
      had ingested, word for word, at the step the search was computed. */
  lemma ResultsAreOwn(w: World, run: seq<Label>, n: nat, r: SearchResult) returns (i: nat, x: Src, y: Src)
    requires IsRun(w, run) && n < |run| && run[n].Return? && r in run[n].results
    ensures i <= n && TellsOf(w, After(w, run[..i]), run[n].tenant, w.vectorise(TextOf(w, x)), r)
    ensures x.root.correlationId == run[n].corr && x.root.tenantId == run[n].tenant
    ensures StoredFrom(w, After(w, run[..i]), run[n].tenant, r.chunkId, y)
    ensures y.root.tenantId == run[n].tenant && r.documentId == DocOf(y.root) && r.text == TextOf(w, y)
  {
    var j;
    j, i, x := SearchLinearizable(w, run, n);
    AnswerTells(w, After(w, run[..i]), run[n].tenant, w.vectorise(TextOf(w, x)),
                Engine.EffectiveTopK(CarriedTopK(x.root)), run[n].results, r);
    RunPrefix(w, run, i);
    StoreOkReachable(w, run[..i]);
    y :| StoredFrom(w, After(w, run[..i]), run[n].tenant, r.chunkId, y);
  }

  // End-to-end retrieval.

  /** The engine does not restart from step i up to step n. */
  ghost predicate NoWipe(run: seq<Label>, i: nat, n: nat) {
    forall j | i <= j < n && j < |run| :: !WipesIndex(run[j])
  }

  ghost predicate SoundStep(w: World, s: State, l: Label) {
    Sound(w, s) && Enabled(w, s, l)
  }

  /** Every sound step that q allows and after which r holds keeps p; and r held before it. */
  ghost predicate Keeps(w: World, p: State -> bool, q: Label -> bool, r: State -> bool) {
    forall s, l {:trigger SoundStep(w, s, l)} | SoundStep(w, s, l) && q(l) && r(Next(w, s, l)) ::
      r(s) && (p(s) ==> p(Next(w, s, l)))
  }

  ghost predicate AllFrom(run: seq<Label>, k: nat, q: Label -> bool) {
    forall i | k <= i < |run| :: q(run[i])
  }

  /** A run that goes on from `base`, after which p holds, by steps that keep it. */
  ghost predicate Stretch(w: World, base: seq<Label>, run: seq<Label>, p: State -> bool, q: Label -> bool,
                          r: State -> bool)
  {
    && IsRun(w, run) && base <= run && Keeps(w, p, q, r) && r(After(w, run)) && p(After(w, base))
    && AllFrom(run, |base|, q)
  }

  /** What every step on the way keeps, holds at its end. */
  lemma {:induction false} KeptAlong(w: World, base: seq<Label>, run: seq<Label>, p: State -> bool, q: Label -> bool,
                                     r: State -> bool)
    requires Stretch(w, base, run, p, q, r)
    ensures p(After(w, run))
  {
    if |base| < |run| {
      StretchBefore(w, base, run, p, q, r);
      KeptAlong(w, base, run[..|run| - 1], p, q, r);
      KeptOnce(w, base, run, p, q, r);
    } else {
      SameLength(base, run);
    }
  }

  lemma SameLength(base: seq<Label>, run: seq<Label>)
    requires base <= run && |run| <= |base|
    ensures base == run
  {
  }

  lemma LastIsSound(w: World, run: seq<Label>)
    requires IsRun(w, run) && run != []
    ensures SoundStep(w, After(w, run[..|run| - 1]), run[|run| - 1])
  {
    SoundReachable(w, run[..|run| - 1]);
  }

  lemma StretchBefore(w: World, base: seq<Label>, run: seq<Label>, p: State -> bool, q: Label -> bool,
                      r: State -> bool)
    requires Stretch(w, base, run, p, q, r) && |base| < |run|
    ensures Stretch(w, base, run[..|run| - 1], p, q, r)
  {
    AllBefore(base, run, q);
    HeldBefore(w, base, run, p, q, r);
  }

  lemma AllBefore(base: seq<Label>, run: seq<Label>, q: Label -> bool)
    requires base <= run && |base| < |run| && AllFrom(run, |base|, q)
    ensures base <= run[..|run| - 1] && AllFrom(run[..|run| - 1], |base|, q)
  {
  }

  lemma HeldBefore(w: World, base: seq<Label>, run: seq<Label>, p: State -> bool, q: Label -> bool, r: State -> bool)
    requires Stretch(w, base, run, p, q, r) && |base| < |run|
    ensures IsRun(w, run[..|run| - 1]) && r(After(w, run[..|run| - 1]))
  {
    LastIsSound(w, run);
  }

  lemma KeptOnce(w: World, base: seq<Label>, run: seq<Label>, p: State -> bool, q: Label -> bool, r: State -> bool)
    requires Stretch(w, base, run, p, q, r) && |base| < |run| && p(After(w, run[..|run| - 1]))
    ensures p(After(w, run))
  {
    LastIsSound(w, run);
  }

  lemma Prefixes(run: seq<Label>, k: nat, n: nat)
    requires k <= n <= |run|
    ensures run[..k] <= run[..n]
  {
  }

  /** The record is not a vision record, or its image was never replaced by another. */
  ghost predicate NeverReplaced(s: State, id: string, uri: string) {
    |id| == UUID_LENGTH || OneVersionOf(s, uri)
  }

  /** The record stored at step i still reads the same at step n: it is not a vision record, or its image was never
      replaced by another. */
  ghost predicate SteadyTo(w: World, run: seq<Label>, i: nat, n: nat, t: string, id: string)
    requires i <= n <= |run|
  {
    && Has(After(w, run[..i]).store, t, id) && NoWipe(run, i, n)
    && NeverReplaced(After(w, run[..n]), id, After(w, run[..i]).store[t][id].fileURI)
  }

  lemma SteadyBefore(w: World, run: seq<Label>, i: nat, k: nat, n: nat, t: string, id: string)
    requires i <= k <= n <= |run| && SteadyTo(w, run, i, n, t, id)
    ensures SteadyTo(w, run, i, k, t, id)
  {
    RunGrows(w, run, k, n);
  }

  predicate Reads(s: State, t: string, id: string, rec: Record) {
    Has(s.store, t, id) && s.store[t][id] == rec
  }

  lemma ReadsKept(w: World, t: string, id: string, rec: Record)
    ensures Keeps(w, s => Reads(s, t, id, rec), l => !WipesIndex(l), s => NeverReplaced(s, id, rec.fileURI))
  {
    forall s, l | SoundStep(w, s, l) && !WipesIndex(l) && NeverReplaced(Next(w, s, l), id, rec.fileURI)
      ensures NeverReplaced(s, id, rec.fileURI)
      ensures Reads(s, t, id, rec) ==> Reads(Next(w, s, l), t, id, rec)
    {
      NextGrows(w, s, l);
      if Reads(s, t, id, rec) {
        RecordKept(w, s, l, t, id);
      }
    }
  }

  lemma RecordStays(w: World, run: seq<Label>, i: nat, n: nat, t: string, id: string)
    requires IsRun(w, run) && i <= n <= |run| && SteadyTo(w, run, i, n, t, id)
    ensures Reads(After(w, run[..n]), t, id, After(w, run[..i]).store[t][id])
  {
    var rec := After(w, run[..i]).store[t][id];
    ReadsKept(w, t, id, rec);
    RunPrefix(w, run, n);
    Prefixes(run, i, n);
    KeptAlong(w, run[..i], run[..n], s => Reads(s, t, id, rec), l => !WipesIndex(l),
              s => NeverReplaced(s, id, rec.fileURI));
  }

  /** No two calls share a correlation ID. */
  lemma OneCall(w: World, run: seq<Label>, j: nat, k: nat)
    requires IsRun(w, run) && j < k < |run| && run[j].Search? && run[k].Search?
    ensures run[j].corr != run[k].corr
  {
    RunPrefix(w, run, j);
    RunPrefix(w, run, k);
    RunGrows(w, run, j + 1, k);
    assert run[j].corr in After(w, run[..j + 1]).hist.used;
  }

  lemma SameCall(w: World, run: seq<Label>, j: nat, k: nat)
    requires IsRun(w, run) && j < |run| && k < |run| && run[j].Search? && run[k].Search? && run[j].corr == run[k].corr
    ensures j == k
  {
    if j < k {
      OneCall(w, run, j, k);
    } else if k < j {
      OneCall(w, run, k, j);
    }
  }

  /** Once any piece of text is stored with a non-zero vector, every later search by that tenant for the same text, if
      it is answered before the engine restarts, is answered with a first result of score exactly 1. Whatever else is
      uploaded does not matter, unless the piece is an image's description and the image is replaced. */
  lemma StoredTextIsFound(w: World, run: seq<Label>, i0: nat, t: string, id: string, j: nat, n: nat)
    requires IsRun(w, run) && Cosine.IsSqrt(w.sqrt)
    requires i0 <= j < n < |run| && SteadyTo(w, run, i0, n, t, id)
    requires Cosine.Norm2(After(w, run[..i0]).store[t][id].vector) != 0.0
    requires TextSearch(run[j], After(w, run[..i0]).store[t][id].text)
    requires run[n].Return? && run[n].corr == run[j].corr && run[n].tenant == t
    ensures run[n].results != [] && run[n].results[0].score == 1.0
  {
    var j', i, x := SearchLinearizable(w, run, n);
    SameCall(w, run, j, j');
    DirectQuery(w, run, j, x);
    SteadyBefore(w, run, i0, i, n, t, id);
    StoredStill(w, run, i0, i, t, id);
    FoundAt(w, After(w, run[..i]), x, t, id, run[n].results);
  }

  /** A search that takes the direct route: not for an image, and not with a text file. */
  predicate TextSearch(l: Label, text: string) {
    && l.Search? && l.s.query == text && !("image/" <= l.s.mime)
    && !(l.s.file.Some? && l.s.size > 0 && Contains(l.s.mime, "text/"))
  }

  lemma FoundAt(w: World, s: State, x: Src, t: string, id: string, results: seq<SearchResult>)
    requires Cosine.IsSqrt(w.sqrt) && AnswersSource(w, s, x, results) && x.root.tenantId == t
    requires Has(s.store, t, id) && s.store[t][id].vector == w.vectorise(TextOf(w, x))
    requires Cosine.Norm2(s.store[t][id].vector) != 0.0
    ensures results != [] && results[0].score == 1.0
  {
    var q, k := s.store[t][id].vector, Engine.EffectiveTopK(CarriedTopK(x.root));
    var hits :| IsTopK(w.sqrt, Slice(s.store, t), q, k, hits) && results == Engine.AllToTransport(hits);
    StoredQueryScoresOne(w.sqrt, Slice(s.store, t), q, k, hits, id);
  }

  lemma StoredStill(w: World, run: seq<Label>, i0: nat, i: nat, t: string, id: string)
    requires IsRun(w, run) && i0 <= i <= |run| && SteadyTo(w, run, i0, i, t, id)
    ensures var store := After(w, run[..i]).store;
            && Has(store, t, id) && store[t][id] == After(w, run[..i0]).store[t][id]
            && store[t][id].vector == w.vectorise(store[t][id].text)
  {
    RecordStays(w, run, i0, i, t, id);
    RunPrefix(w, run, i);
    StoreOkReachable(w, run[..i]);
    VectorOfText(w, After(w, run[..i]), t, id);
  }

  lemma VectorOfText(w: World, s: State, t: string, id: string)
    requires StoreOk(w, s) && Has(s.store, t, id)
    ensures s.store[t][id].vector == w.vectorise(s.store[t][id].text)
  {
    var y :| StoredFrom(w, s, t, id, y);
  }

  lemma DirectQuery(w: World, run: seq<Label>, j: nat, x: Src)
    requires IsCall(w, run, j, x.root) && TextSearch(run[j], run[j].s.query)
    requires x.i < |Texts(w, x.root, x.blob)|
    ensures TextOf(w, x) == run[j].s.query
  {
  }
}
