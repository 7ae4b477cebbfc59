/** The pipeline never gets stuck: from every reachable state, given enough fresh UUIDs, deliveries without faults and
    returning searches empty the queue. */
module Completion {
  import opened Wrappers
  import opened Events
  import opened Bus
  import opened Blobs
  import opened Environment
  import opened VectorDB
  import opened Protocol
  import opened Provenance
  import opened Invariant
  import opened Answerability
  import opened Termination
  import Router
  import Chunker
  import Engine

  // Every query has an answer.

  lemma {:induction false} Best(sqrt: real -> real, slice: map<string, Record>, q: Vector, ids: set<string>)
    returns (best: string)
    requires ids != {} && ids <= Candidates(slice, q)
    ensures best in ids && forall id | id in ids :: Score(sqrt, slice, q, id) <= Score(sqrt, slice, q, best)
    decreases |ids|
  {
    best :| best in ids;
    var rest := ids - {best};
    if rest != {} {
      var other := Best(sqrt, slice, q, rest);
      assert forall id | id in ids :: id == best || id in rest;
      if Score(sqrt, slice, q, other) > Score(sqrt, slice, q, best) {
        best := other;
      }
    }
  }

  lemma AddBestOrder(hits: seq<Hit>, h: Hit)
    requires Descending(hits) && forall i | 0 <= i < |hits| :: h.score <= hits[i].score
    ensures Descending(hits + [h])
  {
  }

  lemma IdsAreCandidates(sqrt: real -> real, slice: map<string, Record>, q: Vector, hits: seq<Hit>)
    requires AllHits(sqrt, slice, q, hits)
    ensures Ids(hits) <= Candidates(slice, q)
  {
    forall id | id in Ids(hits) ensures id in Candidates(slice, q) {
      var i :| 0 <= i < |hits| && hits[i].chunkId == id;
      assert hits[i] in hits;
    }
  }

  lemma AddBestSize(sqrt: real -> real, slice: map<string, Record>, q: Vector, k: nat, hits: seq<Hit>, best: string)
    requires IsTopK(sqrt, slice, q, k, hits) && best in Candidates(slice, q) && best !in Ids(hits)
    ensures |hits| == k < |Candidates(slice, q)|
  {
    IdsSize(hits);
    IdsAreCandidates(sqrt, slice, q, hits);
    SubsetSize(Ids(hits) + {best}, Candidates(slice, q));
  }

  lemma AddBest(sqrt: real -> real, slice: map<string, Record>, q: Vector, k: nat, hits: seq<Hit>, best: string)
    requires IsTopK(sqrt, slice, q, k, hits) && best in Candidates(slice, q) && best !in Ids(hits)
    requires forall id | id in Candidates(slice, q) && id !in Ids(hits) ::
               Score(sqrt, slice, q, id) <= Score(sqrt, slice, q, best)
    ensures IsTopK(sqrt, slice, q, k + 1, hits + [HitOf(sqrt, slice, q, best)])
  {
    var h := HitOf(sqrt, slice, q, best);
    var r := hits + [h];
    OneMoreHit(sqrt, slice, q, hits, h);
    AddBestSize(sqrt, slice, q, k, hits, best);
    AddBestOrder(hits, h);
    forall id, i | id in Candidates(slice, q) && id !in Ids(r) && 0 <= i < |r|
      ensures Score(sqrt, slice, q, id) <= r[i].score
    {
      assert id !in Ids(hits);
      assert i < |hits| ==> r[i] == hits[i];
    }
  }

  lemma AllTaken(sqrt: real -> real, slice: map<string, Record>, q: Vector, k: nat, hits: seq<Hit>)
    requires IsTopK(sqrt, slice, q, k, hits) && Candidates(slice, q) - Ids(hits) == {}
    ensures IsTopK(sqrt, slice, q, k + 1, hits)
  {
    IdsSize(hits);
    IdsAreCandidates(sqrt, slice, q, hits);
    assert Candidates(slice, q) == (Candidates(slice, q) - Ids(hits)) + Ids(hits);
  }

  lemma {:induction false} TopKExists(sqrt: real -> real, slice: map<string, Record>, q: Vector, k: nat)
    returns (hits: seq<Hit>)
    ensures IsTopK(sqrt, slice, q, k, hits)
  {
    if k == 0 {
      hits := [];
    } else {
      hits := TopKExists(sqrt, slice, q, k - 1);
      var rest := Candidates(slice, q) - Ids(hits);
      if rest == {} {
        AllTaken(sqrt, slice, q, k - 1, hits);
      } else {
        var best := Best(sqrt, slice, q, rest);
        AddBest(sqrt, slice, q, k - 1, hits, best);
        hits := hits + [HitOf(sqrt, slice, q, best)];
      }
    }
  }

  lemma AnswerExists(w: World, s: State, env: Envelope) returns (results: seq<SearchResult>)
    ensures Engine.AnswersEnvelope(w.sqrt, s.store, env, results)
  {
    results := [];
    if Engine.Searches(env) {
      var p := DecodeEmbedCompleted(env.data);
      var hits := TopKExists(w.sqrt, Slice(s.store, env.tenantId), p.chunks[0].vector,
                             Engine.EffectiveTopK(p.searchTopK));
      results := Engine.AllToTransport(hits);
    }
  }

  // How many UUIDs the queue still needs.

  function Wants(b: Backend, objects: Objects): Msg -> nat {
    (m: Msg) =>
      if m.topic == TaskChunk || (m.topic == Ingress && Router.Classify(m.env) == Router.Forward(TaskChunk))
      then |Chunker.Texts(b, objects, m.env)|
      else 0
  }

  function Sum(f: Msg -> nat, pubs: seq<Pub>): nat {
    if pubs == [] then 0
    else
      var p := pubs[|pubs| - 1];
      Sum(f, pubs[..|pubs| - 1]) + if p.topic == Dlq then 0 else f(Msg(p.topic, p.env, MAX_DELIVER))
  }

  lemma {:induction false} TotalWithArrivals(f: Msg -> nat, ms: multiset<Msg>, pubs: seq<Pub>)
    ensures Total(f, ms + Arrivals(pubs)) == Total(f, ms) + Sum(f, pubs)
  {
    if pubs == [] {
      assert ms + multiset{} == ms;
    } else {
      var n := |pubs| - 1;
      var p := pubs[n];
      TotalWithArrivals(f, ms, pubs[..n]);
      if p.topic == Dlq {
        assert Arrivals(pubs[..n]) + multiset{} == Arrivals(pubs[..n]);
      } else {
        var m := Msg(p.topic, p.env, MAX_DELIVER);
        TotalAdd(f, ms + Arrivals(pubs[..n]), m);
        assert ms + Arrivals(pubs) == ms + Arrivals(pubs[..n]) + multiset{m};
      }
    }
  }

  lemma {:induction false} SumZero(f: Msg -> nat, pubs: seq<Pub>)
    requires forall p | p in pubs && p.topic != Dlq :: f(Msg(p.topic, p.env, MAX_DELIVER)) == 0
    ensures Sum(f, pubs) == 0
  {
    if pubs != [] {
      var n := |pubs| - 1;
      assert pubs[n] in pubs && forall p | p in pubs[..n] :: p in pubs;
      SumZero(f, pubs[..n]);
    }
  }

  lemma {:induction false} TotalZero(f: Msg -> nat, ms: multiset<Msg>)
    requires forall m | m in ms :: f(m) == 0
    ensures Total(f, ms) == 0
    decreases |ms|
  {
    if ms != multiset{} {
      var m :| m in ms;
      TotalRemove(f, ms, m);
      TotalZero(f, ms - multiset{m});
    }
  }

  lemma SumOne(f: Msg -> nat, p: Pub)
    ensures Sum(f, [p]) == if p.topic == Dlq then 0 else f(Msg(p.topic, p.env, MAX_DELIVER))
  {
    assert [p][..0] == [];
  }

  /** A delivery without faults: all goes well, with these names and these search results. */
  function Fine(ids: seq<string>, results: seq<SearchResult>): (a: Answers)
    ensures Faultless(a) && a.ids == ids
  {
    Answers(seq(|ids| + 1, i => true), true, true, ids, results, "", false, 0, true)
  }

  /** Only the router hands on something that will need names, and then only what it was handed. */
  lemma EmitsWantNothing(w: World, s: State, m: Msg, a: Answers, x: Src, p: Pub)
    requires ValidSrc(w, s, x) && m.env == EnvOf(w, x) && TopicOk(m.topic, x) && m.topic != Ingress
    requires p in React(w, s, m, a).emits
    ensures Wants(w.backend, s.blobs)(Msg(p.topic, p.env, MAX_DELIVER)) == 0
  {
    match m.topic
    case TaskEmbed =>
      EmbedAt(w, s, x, a);
      ClassifyAt(w, Embedded(x));
    case TaskVision =>
      VisionPub(w, s, m, a, x, p);
      var image := Download(w.backend, s.blobs, x.root.data.blobURI);
      ClassifyAt(w, Src(AtTask, x.root, image.value, 0, DocOf(x.root) + "-vision"));
    case TaskChunk =>
      var j := ChunkPub(w, s, m, a, x, p);
      ClassifyAt(w, ChunkSrc(x.root, Download(w.backend, s.blobs, x.root.data.blobURI).value, j, a.Id(j)));
    case TaskEngine => EngineAt(w, s, x, a);
  }

  lemma RouterWants(w: World, s: State, m: Msg, a: Answers, x: Src)
    requires m.env == EnvOf(w, x) && m.topic == Ingress && Faultless(a)
    ensures var f := Wants(w.backend, s.blobs);
            Sum(f, React(w, s, m, a).emits) == f(m) && React(w, s, m, a).settle == Acked
  {
    ClassifyAt(w, x);
    SumOne(Wants(w.backend, s.blobs), Pub(Target(x), m.env));
  }

  lemma NackWantsNothing(w: World, s: State, m: Msg, a: Answers, x: Src)
    requires ValidSrc(w, s, x) && m.env == EnvOf(w, x) && TopicOk(m.topic, x) && m.topic != Ingress && Faultless(a)
    requires |a.ids| == |Named(w, s, m, a)| && React(w, s, m, a).settle == Nacked
    ensures Wants(w.backend, s.blobs)(m) == 0
  {
    FaultlessHandler(w, s, m, a, x);
  }

  lemma NamedAsWanted(w: World, s: State, m: Msg, a: Answers)
    requires Faultless(a)
    ensures m.topic == TaskChunk ==> |Named(w, s, m, a)| == Wants(w.backend, s.blobs)(m)
    ensures m.topic != TaskChunk ==> Named(w, s, m, a) == []
  {
  }

  /** What a delivery passes on or keeps, and the names it draws, it had been wanting. */
  lemma DeliveryWants(w: World, s: State, m: Msg, a: Answers)
    requires Inv(w, s) && m in s.pending && Faultless(a) && |a.ids| == |Named(w, s, m, a)|
    ensures var f, r := Wants(w.backend, s.blobs), React(w, s, m, a);
            Sum(f, r.emits) + |Named(w, s, m, a)| + (if r.settle == Nacked then f(m) else 0) <= f(m)
  {
    var f := Wants(w.backend, s.blobs);
    NamedAsWanted(w, s, m, a);
    if m.topic.Reply? {
      RepliesAcked(w, s, m, a);
    } else {
      var x := PlaceOf(w, s, m);
      if m.topic == Ingress {
        RouterWants(w, s, m, a, x);
      } else {
        forall p | p in React(w, s, m, a).emits && p.topic != Dlq ensures f(Msg(p.topic, p.env, MAX_DELIVER)) == 0 {
          EmitsWantNothing(w, s, m, a, x, p);
        }
        SumZero(f, React(w, s, m, a).emits);
        if React(w, s, m, a).settle == Nacked {
          NackWantsNothing(w, s, m, a, x);
        }
      }
    }
  }

  lemma WantsAlike(b: Backend, objects: Objects, m: Msg, left: nat)
    ensures Wants(b, objects)(m.(left := left)) == Wants(b, objects)(m)
  {
  }

  lemma WantsAfter(f: Msg -> nat, ms: multiset<Msg>, m: Msg, settled: Option<Settlement>)
    requires m in ms && (m.left > 1 ==> f(m.(left := m.left - 1)) == f(m))
    ensures Total(f, ms - multiset{m} + Redelivery(m, settled)) <=
            Total(f, ms) - f(m) + if settled == Some(Acked) then 0 else f(m)
  {
    TotalRemove(f, ms, m);
    if Redelivery(m, settled) == multiset{} {
      assert ms - multiset{m} + multiset{} == ms - multiset{m};
    } else {
      TotalAdd(f, ms - multiset{m}, m.(left := m.left - 1));
    }
  }

  lemma TotalWants(w: World, s: State, m: Msg, a: Answers)
    requires Inv(w, s) && Enabled(w, s, Deliver(m, a)) && Faultless(a)
    ensures var f := Wants(w.backend, s.blobs);
            Total(f, Next(w, s, Deliver(m, a)).pending) + |a.ids| <= Total(f, s.pending)
  {
    var f, r := Wants(w.backend, s.blobs), React(w, s, m, a);
    DeliveredPending(w, s, m, a);
    DeliveryWants(w, s, m, a);
    TotalWithArrivals(f, s.pending, r.emits);
    if m.left > 1 {
      WantsAlike(w.backend, s.blobs, m, m.left - 1);
    }
    WantsAfter(f, s.pending + Arrivals(r.emits), m, Settled(r, a));
    NeverTermedHere(w, s, m, a);
  }

  lemma NeverTermedHere(w: World, s: State, m: Msg, a: Answers)
    requires Inv(w, s) && m in s.pending && Faultless(a)
    ensures React(w, s, m, a).settle != Termed
  {
    if m.topic.Reply? {
      RepliesAcked(w, s, m, a);
    } else {
      var x := PlaceOf(w, s, m);
      PlaceNotTermed(w, s, m, a, x);
    }
  }

  lemma PlaceNotTermed(w: World, s: State, m: Msg, a: Answers, x: Src)
    requires ValidSrc(w, s, x) && m.env == EnvOf(w, x) && TopicOk(m.topic, x)
    ensures React(w, s, m, a).settle != Termed
  {
    ClassifyAt(w, x);
    if m.topic == TaskEngine {
      EngineAt(w, s, x, a);
    }
  }

  /** Fresh names enough for every window still to be named. */
  ghost predicate Supply(w: World, s: State, ids: seq<string>) {
    DistinctFresh(s, ids) && Total(Wants(w.backend, s.blobs), s.pending) <= |ids|
  }

  lemma FreshRest(s: State, s': State, ids: seq<string>, k: nat)
    requires DistinctFresh(s, ids) && k <= |ids| && s'.hist.used == s.hist.used + (set id | id in ids[..k])
    ensures DistinctFresh(s', ids[k..])
  {
    forall i | 0 <= i < |ids[k..]| ensures FreshId(s', ids[k..][i]) {
      assert ids[k..][i] == ids[k + i] && FreshId(s, ids[k + i]);
      assert forall j | 0 <= j < k :: ids[..k][j] == ids[j];
    }
  }

  lemma SuppliedAfter(w: World, s: State, m: Msg, a: Answers, ids: seq<string>, k: nat)
    requires Inv(w, s) && Enabled(w, s, Deliver(m, a)) && Faultless(a) && Supply(w, s, ids)
    requires k <= |ids| && a.ids == ids[..k]
    ensures Supply(w, Next(w, s, Deliver(m, a)), ids[k..])
  {
    TotalWants(w, s, m, a);
    VersionsOfDelivery(w, s, m, a);
    UsedAfter(w, s, m, a);
    FreshRest(s, Next(w, s, Deliver(m, a)), ids, k);
  }

  lemma UsedAfter(w: World, s: State, m: Msg, a: Answers)
    ensures Next(w, s, Deliver(m, a)).hist.used == s.hist.used + (set id | id in a.ids)
  {
  }

  function CapOf(b: Backend, objects: Objects): Cap {
    (e: Envelope) => |Chunker.Texts(b, objects, e)|
  }

  /** What is left to do. */
  ghost function Work(w: World, s: State): nat {
    Total(Weight(CapOf(w.backend, s.blobs), All), s.pending) + |s.calls|
  }

  /** The reply's search holds another one already: it returns first. */
  predicate Blocked(s: State, m: Msg) {
    m.topic.Reply? && m.env.correlationId in s.calls && s.calls[m.env.correlationId].inbox.Some?
  }

  lemma FineEnabled(w: World, s: State, m: Msg, ids: seq<string>, k: nat, results: seq<SearchResult>)
    requires m in s.pending && !Blocked(s, m) && DistinctFresh(s, ids) && k <= |ids|
    requires k == |Named(w, s, m, Fine(ids[..k], results))|
    requires Engine.AnswersEnvelope(w.sqrt, s.store, m.env, results)
    ensures Enabled(w, s, Deliver(m, Fine(ids[..k], results)))
  {
    assert forall i | 0 <= i < k :: ids[..k][i] == ids[i] && FreshId(s, ids[i]);
  }

  lemma FineDelivery(w: World, s: State, m: Msg, ids: seq<string>) returns (a: Answers, k: nat)
    requires Inv(w, s) && m in s.pending && !Blocked(s, m) && Supply(w, s, ids)
    ensures k <= |ids| && a.ids == ids[..k] && Faultless(a) && Enabled(w, s, Deliver(m, a))
  {
    var results := AnswerExists(w, s, m.env);
    TotalRemove(Wants(w.backend, s.blobs), s.pending, m);
    k := if m.topic == TaskChunk then Wants(w.backend, s.blobs)(m) else 0;
    a := Fine(ids[..k], results);
    NamedAsWanted(w, s, m, a);
    FineEnabled(w, s, m, ids, k, results);
  }

  lemma DeliveryWorks(w: World, s: State, m: Msg, a: Answers)
    requires Inv(w, s) && Enabled(w, s, Deliver(m, a))
    ensures Work(w, Next(w, s, Deliver(m, a))) < Work(w, s)
  {
    DeliveryLowers(w, s, CapOf(w.backend, s.blobs), All, m, a);
    VersionsOfDelivery(w, s, m, a);
    CallsChange(w, s, Deliver(m, a));
  }

  lemma ReturnWorks(w: World, s: State, l: Label)
    requires l.Return? && Enabled(w, s, l)
    ensures Work(w, Next(w, s, l)) < Work(w, s)
    ensures Next(w, s, l).pending == s.pending && Next(w, s, l).hist == s.hist && Next(w, s, l).blobs == s.blobs
  {
    CallsChange(w, s, l);
  }

  lemma ReturnEnabled(w: World, s: State, m: Msg, ids: seq<string>) returns (l: Label)
    requires Blocked(s, m) && Supply(w, s, ids)
    ensures Enabled(w, s, l) && l.Return?
    ensures Supply(w, Next(w, s, l), ids) && Work(w, Next(w, s, l)) < Work(w, s) && Next(w, s, l).hist == s.hist
  {
    var c := m.env.correlationId;
    l := Return(s.calls[c].tenant, c, DecodeSearchCompleted(s.calls[c].inbox.value.data));
    ReturnWorks(w, s, l);
    StillFresh(s, Next(w, s, l), ids);
  }

  lemma StillFresh(s: State, s': State, ids: seq<string>)
    requires DistinctFresh(s, ids) && s'.hist == s.hist
    ensures DistinctFresh(s', ids)
  {
    assert forall i | 0 <= i < |ids| :: FreshId(s, ids[i]);
  }

  lemma DeliverEnabled(w: World, s: State, m: Msg, ids: seq<string>) returns (l: Label, rest: seq<string>)
    requires Inv(w, s) && m in s.pending && !Blocked(s, m) && Supply(w, s, ids)
    ensures Enabled(w, s, l) && l.Deliver? && Faultless(l.a)
    ensures Supply(w, Next(w, s, l), rest) && Work(w, Next(w, s, l)) < Work(w, s)
    ensures Next(w, s, l).hist.used <= s.hist.used + (set id | id in ids) && forall id | id in rest :: id in ids
  {
    var a, k := FineDelivery(w, s, m, ids);
    l, rest := Deliver(m, a), ids[k..];
    SuppliedAfter(w, s, m, a, ids, k);
    DeliveryWorks(w, s, m, a);
    UsedAfter(w, s, m, a);
  }

  /** One step towards an empty queue. */
  lemma Progress(w: World, s: State, ids: seq<string>) returns (l: Label, rest: seq<string>)
    requires Inv(w, s) && s.pending != multiset{} && Supply(w, s, ids)
    ensures Enabled(w, s, l) && FaultlessStep(l) && (l.Deliver? || l.Return?)
    ensures Supply(w, Next(w, s, l), rest) && Work(w, Next(w, s, l)) < Work(w, s)
    ensures Next(w, s, l).hist.used <= s.hist.used + (set id | id in ids) && forall id | id in rest :: id in ids
  {
    var m :| m in s.pending;
    if Blocked(s, m) {
      l := ReturnEnabled(w, s, m, ids);
      rest := ids;
    } else {
      l, rest := DeliverEnabled(w, s, m, ids);
    }
  }

  ghost predicate FaultlessMore(more: seq<Label>) {
    forall i | 0 <= i < |more| :: FaultlessStep(more[i]) && (more[i].Deliver? || more[i].Return?)
  }

  /** Whatever UUIDs were drawn in between are out of `ids`. */
  ghost predicate DrawsFrom(s: State, s': State, ids: seq<string>) {
    s'.hist.used <= s.hist.used + set id | id in ids
  }

  /** The continuation is faultless and empties the queue. */
  ghost predicate Finishes(w: World, run: seq<Label>, more: seq<Label>) {
    IsRun(w, run + more) && FaultlessMore(more) && After(w, run + more).pending == multiset{}
  }

  lemma FinishesAfter(w: World, run: seq<Label>, l: Label, tail: seq<Label>)
    requires FaultlessStep(l) && (l.Deliver? || l.Return?) && Finishes(w, run + [l], tail)
    ensures Finishes(w, run, [l] + tail)
  {
    Regroup(run, l, tail);
    FaultlessFrom(l, tail);
  }

  lemma Regroup(run: seq<Label>, l: Label, tail: seq<Label>)
    ensures run + ([l] + tail) == run + [l] + tail
  {
  }

  lemma FaultlessFrom(l: Label, tail: seq<Label>)
    requires FaultlessStep(l) && (l.Deliver? || l.Return?) && FaultlessMore(tail)
    ensures FaultlessMore([l] + tail)
  {
  }

  /** From every reachable state, given enough fresh UUIDs, some continuation of faultless deliveries and returning
      searches leaves nothing in flight and draws no UUID but those. */
  lemma {:induction false} Completes(w: World, run: seq<Label>, ids: seq<string>) returns (more: seq<Label>)
    requires IsRun(w, run) && Supply(w, After(w, run), ids)
    ensures Finishes(w, run, more) && DrawsFrom(After(w, run), After(w, run + more), ids)
    decreases Work(w, After(w, run))
  {
    if After(w, run).pending == multiset{} {
      more := [];
      assert run + more == run;
    } else {
      InvReachable(w, run);
      var l, rest := Progress(w, After(w, run), ids);
      RunExtends(w, run, l);
      var tail := Completes(w, run + [l], rest);
      FinishesAfter(w, run, l, tail);
      more := [l] + tail;
      Regroup(run, l, tail);
    }
  }
}
