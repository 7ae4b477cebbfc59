/** The whole pipeline as one transition system. A label carries everything a step leaves open, so a step is a
    function of the state and its label, and a run is a list of labels. */
module Protocol {
  import opened Wrappers
  import opened Events
  import opened Bus
  import opened Blobs
  import opened Environment
  import opened VectorDB
  import opened Gateway
  import Router
  import Embedder
  import Vision
  import Chunker
  import Engine

  /** The chunker gave `id` to window `index` of the document, which reads `text`. */
  datatype Name = Name(id: string, docId: string, index: nat, text: string)

  /** A record that was in the index when the engine's process restarted. */
  datatype Wiped = Wiped(tenant: string, id: string, rec: Record)

  /** What the proofs remember: the UUIDs drawn, the names given to windows, every content ever uploaded under a URI,
      what was dropped, and what restarts wiped out. No handler reads it. */
  datatype History = History(
    used: set<string>, names: set<Name>, versions: set<(string, string)>, losses: set<Loss>, wiped: set<Wiped>)

  datatype State = State(
    stream: seq<Pub>, pending: multiset<Msg>, store: Store, blobs: Objects, calls: Calls, hist: History)

  datatype Label =
    | Ingest(q: IngestRequest, n: Names, upOk: bool, pubOk: bool)
    | Search(s: SearchRequest, corr: string, upOk: bool, pubOk: bool)
    | Deliver(m: Msg, a: Answers)
    | Return(tenant: string, corr: string, results: seq<SearchResult>)
    | Timeout(tenant: string, corr: string)
    /** Processes restart; the flags say which of the engine's index, the gateway's waiting searches and the memory
        blob store were among them. The bus keeps its messages on disk. */
    | Restart(index: bool, searches: bool, objects: bool)

  const INIT := State([], multiset{}, map[], map[], map[], History({}, {}, {}, {}, {}))

  const UUID_LENGTH := 36

  predicate FreshId(s: State, id: string) {
    |id| == UUID_LENGTH && id !in s.hist.used
  }

  /** What a delivery does on the bus: nothing if it crashed, unless a chunker died halfway. */
  function React(w: World, s: State, m: Msg, a: Answers): Reaction {
    if a.crashed && m.topic != TaskChunk then Reaction([], Acked, {}) else Handle(w, s, m, a)
  }

  function Handle(w: World, s: State, m: Msg, a: Answers): Reaction {
    match m.topic
    case Ingress => Router.React(m.env, a)
    case TaskVision => Vision.React(w.backend, w.describe, s.blobs, m.env, a)
    case TaskChunk => Chunker.React(w.backend, s.blobs, m.env, a)
    case TaskEmbed => Embedder.React(w.vectorise, m.env, a)
    case TaskEngine => Engine.React(m.env, a)
    case Reply(_) => Reaction([], Acked, {})
    case Dlq => Reaction([], Acked, {})
  }

  /** The windows a delivery makes the chunker name. */
  function Named(w: World, s: State, m: Msg, a: Answers): seq<string> {
    var texts := Chunker.Texts(w.backend, s.blobs, m.env);
    if m.topic.TaskChunk? && a.getOk then texts[..a.Reached(|texts|)] else []
  }

  function NewNames(w: World, s: State, m: Msg, a: Answers): set<Name> {
    set j | 0 <= j < |Named(w, s, m, a)| ::
      Name(a.Id(j), DecodeIngest(m.env.data).documentId, j, Named(w, s, m, a)[j])
  }

  function Records(store: Store): set<Wiped> {
    set t, id | t in store && id in store[t] :: Wiped(t, id, store[t][id])
  }

  /** The settlement that reaches the server, if any. */
  function Settled(r: Reaction, a: Answers): Option<Settlement> {
    if a.crashed || !a.settleOk then None else Some(r.settle)
  }

  /** The last delivery ended without an acknowledgement. */
  predicate GivenUp(m: Msg, settled: Option<Settlement>) {
    m.left <= 1 && settled != Some(Acked) && settled != Some(Termed)
  }

  ghost predicate DistinctFresh(s: State, ids: seq<string>) {
    && (forall i | 0 <= i < |ids| :: FreshId(s, ids[i]))
    && (forall i, j | 0 <= i < j < |ids| :: ids[i] != ids[j])
  }

  ghost predicate Enabled(w: World, s: State, l: Label) {
    match l
    case Ingest(q, n, _, _) =>
      FreshId(s, n.docId) && FreshId(s, n.corr) && n.docId != n.corr
    case Search(_, corr, _, _) =>
      FreshId(s, corr) && corr !in s.calls
    case Deliver(m, a) =>
      && m in s.pending
      && |a.ids| == |Named(w, s, m, a)| && DistinctFresh(s, a.ids)
      && (m.topic.TaskEngine? && !a.crashed ==> Engine.AnswersEnvelope(w.sqrt, s.store, m.env, a.results))
      && (m.topic.Reply? && !a.crashed && m.env.correlationId in s.calls ==>
            s.calls[m.env.correlationId].inbox.None?)
    case Return(tenant, corr, results) =>
      && corr in s.calls && s.calls[corr].tenant == tenant && s.calls[corr].inbox.Some?
      && results == DecodeSearchCompleted(s.calls[corr].inbox.value.data)
    case Timeout(tenant, corr) =>
      corr in s.calls && s.calls[corr].tenant == tenant
    case Restart(_, _, objects) =>
      objects ==> w.backend.Memory?
  }

  function NewVersions(b: Backend, tenant: string, us: seq<Upload>): set<(string, string)> {
    set i | 0 <= i < |us| :: (Uri(b, tenant, us[i].filename), us[i].content)
  }

  /** A request's effect: uploads, then publishes. */
  function Requested(w: World, s: State, tenant: string, e: Effect, drawn: set<string>): State {
    s.(stream := s.stream + e.pubs,
       pending := s.pending + Arrivals(e.pubs),
       blobs := AllUploaded(w.backend, s.blobs, tenant, e.uploads),
       hist := s.hist.(used := s.hist.used + drawn,
                       versions := s.hist.versions + NewVersions(w.backend, tenant, e.uploads)))
  }

  /** What a delivery's handler leaves behind. */
  function Handled(w: World, s: State, m: Msg, a: Answers): State {
    var r := React(w, s, m, a);
    s.(stream := s.stream + r.emits,
       pending := s.pending + Arrivals(r.emits),
       store := if m.topic.TaskEngine? && !a.crashed then Engine.StoreAfter(s.store, m.env) else s.store,
       calls := if m.topic.Reply? && !a.crashed then Delivered(s.calls, m.env) else s.calls,
       hist := s.hist.(used := s.hist.used + (set id | id in a.ids),
                       names := s.hist.names + NewNames(w, s, m, a),
                       losses := s.hist.losses + r.losses))
  }

  /** The server's side of the delivery: the message goes, or comes back with one delivery less. */
  function Concluded(s: State, m: Msg, settled: Option<Settlement>): State {
    s.(pending := s.pending - multiset{m} + Redelivery(m, settled),
       hist := s.hist.(losses := s.hist.losses + if GivenUp(m, settled) then {Exhausted(m.env)} else {}))
  }

  function Next(w: World, s: State, l: Label): State {
    match l
    case Ingest(q, n, upOk, pubOk) =>
      Requested(w, s, q.tenant, IngestEffect(w.backend, q, n, upOk, pubOk), {n.docId, n.corr})
    case Search(q, corr, upOk, pubOk) =>
      var e := SearchEffect(w.backend, q, corr, upOk, pubOk);
      var s' := Requested(w, s, q.tenant, e, {corr});
      if e.ok then s'.(calls := s.calls[corr := Call(q.tenant, None)]) else s'
    case Deliver(m, a) =>
      Concluded(Handled(w, s, m, a), m, Settled(React(w, s, m, a), a))
    case Return(_, corr, _) => s.(calls := s.calls - {corr})
    case Timeout(_, corr) => s.(calls := s.calls - {corr})
    case Restart(index, searches, objects) =>
      s.(store := if index then map[] else s.store,
         calls := if searches then map[] else s.calls,
         blobs := if objects then map[] else s.blobs,
         hist := s.hist.(wiped := s.hist.wiped + if index then Records(s.store) else {}))
  }

  /** The state after a list of steps. */
  function After(w: World, run: seq<Label>): State {
    if run == [] then INIT else Next(w, After(w, run[..|run| - 1]), run[|run| - 1])
  }

  ghost predicate IsRun(w: World, run: seq<Label>) {
    run == [] || (IsRun(w, run[..|run| - 1]) && Enabled(w, After(w, run[..|run| - 1]), run[|run| - 1]))
  }

  lemma RunExtends(w: World, run: seq<Label>, l: Label)
    requires IsRun(w, run) && Enabled(w, After(w, run), l)
    ensures IsRun(w, run + [l]) && After(w, run + [l]) == Next(w, After(w, run), l)
  {
    assert (run + [l])[..|run|] == run;
  }

  lemma {:induction false} RunPrefix(w: World, run: seq<Label>, n: nat)
    requires IsRun(w, run) && n <= |run|
    ensures IsRun(w, run[..n])
    ensures n < |run| ==> Enabled(w, After(w, run[..n]), run[n]) &&
                          After(w, run[..n + 1]) == Next(w, After(w, run[..n]), run[n])
  {
    if n < |run| {
      var last := |run| - 1;
      if n < last {
        RunPrefix(w, run[..last], n);
        assert run[..last][..n] == run[..n] && run[..last][..n + 1] == run[..n + 1] && run[..last][n] == run[n];
      } else {
        assert run[..n + 1] == run;
      }
    } else {
      assert run[..n] == run;
    }
  }
}
