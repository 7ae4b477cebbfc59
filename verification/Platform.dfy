/** The monolith: all services over one bus, one blob store and one index. Its methods perform exactly the
    protocol's steps, so what is proved of runs holds of it. */
module Platform {
  import opened Wrappers
  import opened Events
  import opened Bus
  import opened Blobs
  import opened Environment
  import opened VectorDB
  import opened Gateway
  import opened Protocol
  import Cosine
  import Router
  import Embedder
  import Vision
  import Chunker
  import Engine

  class Monolith {
    ghost const world: World
    ghost var hist: History
    const bus: Client
    const blobs: MemoryStorage
    const db: MemoryVectorDB
    const gateway: Gateway.Service
    const router: Router.Service
    const embedder: Embedder.Service
    const vision: Vision.Service
    const chunker: Chunker.Service
    const engine: Engine.Service

    ghost predicate Wired()
    {
      && world.backend == Memory && Cosine.IsSqrt(world.sqrt) && db.sqrt == world.sqrt
      && gateway.bus == bus && gateway.blobs == blobs
      && router.bus == bus
      && embedder.bus == bus && embedder.vectorise == world.vectorise
      && vision.bus == bus && vision.blobs == blobs && vision.describe == world.describe
      && chunker.bus == bus && chunker.blobs == blobs
      && engine.bus == bus && engine.db == db
    }

    ghost function Now(): State
      reads this, bus, blobs, db, gateway
    {
      State(bus.stream, bus.pending, db.store, blobs.store, gateway.pendingReqs, hist)
    }

    constructor (vectorise: string -> Vector, describe: string -> string, sqrt: real -> real)
      requires Cosine.IsSqrt(sqrt)
      ensures Wired() && Now() == INIT
      ensures world == World(vectorise, describe, sqrt, Memory)
    {
      var client := new Client();
      var storage := new MemoryStorage();
      var index := new MemoryVectorDB(sqrt);
      world := World(vectorise, describe, sqrt, Memory);
      hist := History({}, {}, {}, {}, {});
      bus, blobs, db := client, storage, index;
      gateway := new Gateway.Service(client, storage);
      router := new Router.Service(client);
      embedder := new Embedder.Service(client, vectorise);
      vision := new Vision.Service(client, storage, describe);
      chunker := new Chunker.Service(client, storage);
      engine := new Engine.Service(client, index);
    }

    method Ingest(q: IngestRequest, n: Names, upOk: bool, pubOk: bool) returns (docId: Option<string>)
      requires Wired() && Enabled(world, Now(), Label.Ingest(q, n, upOk, pubOk))
      modifies this`hist, bus, blobs
      ensures Now() == Next(world, old(Now()), Label.Ingest(q, n, upOk, pubOk))
    {
      docId := gateway.IngestDocument(q, n, upOk, pubOk);
      hist := Next(world, old(Now()), Label.Ingest(q, n, upOk, pubOk)).hist;
    }

    method BeginSearch(q: SearchRequest, corr: string, upOk: bool, pubOk: bool) returns (waiting: bool)
      requires Wired() && Enabled(world, Now(), Label.Search(q, corr, upOk, pubOk))
      modifies this`hist, bus, blobs, gateway
      ensures Now() == Next(world, old(Now()), Label.Search(q, corr, upOk, pubOk))
    {
      waiting := gateway.BeginSearch(q, corr, upOk, pubOk);
      hist := Next(world, old(Now()), Label.Search(q, corr, upOk, pubOk)).hist;
    }

    method EndSearch(tenant: string, corr: string, timedOut: bool) returns (results: Option<seq<SearchResult>>)
      requires Wired() && Enabled(world, Now(), Label.Timeout(tenant, corr))
      requires !timedOut ==> Now().calls[corr].inbox.Some?
      modifies gateway
      ensures results.None? <==> timedOut
      ensures Now() == Next(world, old(Now()), if timedOut then Label.Timeout(tenant, corr)
                                               else Label.Return(tenant, corr, results.value))
      ensures !timedOut ==> Enabled(world, old(Now()), Label.Return(tenant, corr, results.value))
    {
      results := gateway.EndSearch(corr, timedOut);
    }

    /** The topic's handler; `results` are the search results the engine computed, if it did. */
    method Handle(m: Msg, msg: Message, a: Answers) returns (err: bool, results: seq<SearchResult>)
      requires Wired() && m.topic != Dlq && msg.env == m.env && msg.settled.None?
      requires a.crashed ==> m.topic == TaskChunk
      requires m.topic.Reply? && m.env.correlationId in Now().calls ==> Now().calls[m.env.correlationId].inbox.None?
      modifies bus, msg, db`store, gateway`pendingReqs
      ensures m.topic.TaskEngine? ==> Engine.AnswersEnvelope(world.sqrt, old(db.store), m.env, results)
      ensures var r := React(world, old(Now()), m, a.(results := results));
              && bus.stream == old(bus.stream) + r.emits
              && bus.pending == old(bus.pending) + Arrivals(r.emits)
              && msg.settled == (if msg.reachable then Some(r.settle) else None)
      ensures db.store == if m.topic.TaskEngine? then Engine.StoreAfter(old(db.store), m.env) else old(db.store)
      ensures gateway.pendingReqs ==
              if m.topic.Reply? then Delivered(old(gateway.pendingReqs), m.env) else old(gateway.pendingReqs)
      ensures err == !msg.reachable
    {
      results := [];
      if m.topic.Reply? {
        var blocked;
        err, blocked := gateway.HandleReply(msg);
        assert old(bus.stream) + [] == bus.stream && old(bus.pending) + Arrivals([]) == bus.pending;
      } else if m.topic.TaskEngine? {
        err, results := engine.HandleTask(msg, a);
      } else {
        err := HandleTask(m, msg, a.(results := []));
      }
    }

    method HandleTask(m: Msg, msg: Message, a: Answers) returns (err: bool)
      requires Wired() && m.topic in {Ingress, TaskVision, TaskChunk, TaskEmbed}
      requires msg.env == m.env && msg.settled.None? && (a.crashed ==> m.topic == TaskChunk)
      modifies bus, msg
      ensures var r := React(world, old(Now()), m, a);
              && bus.stream == old(bus.stream) + r.emits
              && bus.pending == old(bus.pending) + Arrivals(r.emits)
              && msg.settled == (if msg.reachable then Some(r.settle) else None)
      ensures err == !msg.reachable
    {
      match m.topic
      case Ingress => err := router.HandleEvent(msg, a);
      case TaskVision => err := vision.HandleTask(msg, a);
      case TaskChunk => err := chunker.HandleTask(msg, a);
      case TaskEmbed => err := embedder.HandleTask(msg, a);
    }

    /** The process runs the handler, unless it dies first (a chunker perhaps halfway). */
    method TryHandler(m: Msg, msg: Message, a: Answers, ghost s: State)
      returns (err: bool, results: seq<SearchResult>)
      requires Wired() && s == Now() && m.topic != Dlq && msg.env == m.env && msg.settled.None?
      requires msg.reachable == (a.settleOk && !a.crashed)
      requires m.topic.Reply? && !a.crashed && m.env.correlationId in Now().calls ==>
                 Now().calls[m.env.correlationId].inbox.None?
      modifies bus, msg, db`store, gateway`pendingReqs
      ensures m.topic.TaskEngine? && !a.crashed ==>
                Engine.AnswersEnvelope(world.sqrt, s.store, m.env, results)
      ensures var r := React(world, s, m, a.(results := results));
              && bus.stream == s.stream + r.emits && bus.pending == s.pending + Arrivals(r.emits)
              && msg.settled == Settled(r, a)
      ensures db.store == if m.topic.TaskEngine? && !a.crashed then Engine.StoreAfter(s.store, m.env) else s.store
      ensures gateway.pendingReqs == if m.topic.Reply? && !a.crashed then Delivered(s.calls, m.env) else s.calls
      ensures err == !msg.reachable
    {
      results, err := [], true;
      if !a.crashed || m.topic == TaskChunk {
        err, results := Handle(m, msg, a);
      } else {
        assert old(bus.stream) + [] == bus.stream && old(bus.pending) + Arrivals([]) == bus.pending;
      }
    }

    /** The handler, if it gets to run; then the wrapper and the server conclude the delivery. */
    method RunHandler(m: Msg, a: Answers, ghost s: State) returns (results: seq<SearchResult>)
      requires Wired() && s == Now() && m in Now().pending && m.topic != Dlq
      requires m.topic.Reply? && !a.crashed && m.env.correlationId in Now().calls ==>
                 Now().calls[m.env.correlationId].inbox.None?
      modifies bus, db`store, gateway`pendingReqs
      ensures m.topic.TaskEngine? && !a.crashed ==>
                Engine.AnswersEnvelope(world.sqrt, s.store, m.env, results)
      ensures var r := React(world, s, m, a.(results := results));
              && bus.stream == s.stream + r.emits
              && bus.pending == s.pending + Arrivals(r.emits) - multiset{m} + Redelivery(m, Settled(r, a))
      ensures db.store == if m.topic.TaskEngine? && !a.crashed then Engine.StoreAfter(s.store, m.env) else s.store
      ensures gateway.pendingReqs == if m.topic.Reply? && !a.crashed then Delivered(s.calls, m.env) else s.calls
    {
      var msg := new Message(m.env, a.settleOk && !a.crashed);
      var err;
      err, results := TryHandler(m, msg, a, s);
      bus.Conclude(m, msg, err);
    }

    /** One delivery. */
    method Deliver(m: Msg, a: Answers) returns (results: seq<SearchResult>)
      requires Wired() && m in Now().pending && m.topic != Dlq
      requires |a.ids| == |Named(world, Now(), m, a)| && DistinctFresh(Now(), a.ids)
      requires m.topic.Reply? && !a.crashed && m.env.correlationId in Now().calls ==>
                 Now().calls[m.env.correlationId].inbox.None?
      modifies this`hist, bus, db`store, gateway`pendingReqs
      ensures Enabled(world, old(Now()), Label.Deliver(m, a.(results := results)))
      ensures Now() == Next(world, old(Now()), Label.Deliver(m, a.(results := results)))
    {
      ghost var before := Now();
      results := RunHandler(m, a, before);
      EnabledWithResults(world, before, m, a, results);
      hist := DeliveryIs(world, before, m, a.(results := results), bus.stream, bus.pending, db.store,
                         gateway.pendingReqs);
    }

    /** The one process restarts: the index, the blobs and the waiting searches were its memory; the bus is on disk. */
    method Restart()
      requires Wired()
      modifies this`hist, db`store, blobs, gateway`pendingReqs
      ensures Now() == Next(world, old(Now()), Label.Restart(true, true, true))
      ensures Enabled(world, old(Now()), Label.Restart(true, true, true))
    {
      hist := Next(world, Now(), Label.Restart(true, true, true)).hist;
      db.store := map[];
      blobs.store := map[];
      gateway.pendingReqs := map[];
    }
  }

  /** A delivery, field by field. */
  lemma DeliveryIs(w: World, s: State, m: Msg, a: Answers, stream: seq<Pub>, pending: multiset<Msg>, store: Store,
                   calls: Calls)
    returns (hist: History)
    requires stream == s.stream + React(w, s, m, a).emits
    requires pending == s.pending + Arrivals(React(w, s, m, a).emits) - multiset{m}
                        + Redelivery(m, Settled(React(w, s, m, a), a))
    requires store == if m.topic.TaskEngine? && !a.crashed then Engine.StoreAfter(s.store, m.env) else s.store
    requires calls == if m.topic.Reply? && !a.crashed then Delivered(s.calls, m.env) else s.calls
    ensures State(stream, pending, store, s.blobs, calls, hist) == Next(w, s, Label.Deliver(m, a))
  {
    hist := Next(w, s, Label.Deliver(m, a)).hist;
  }

  /** Only the engine's deliveries constrain the results in the label. */
  lemma EnabledWithResults(w: World, s: State, m: Msg, a: Answers, results: seq<SearchResult>)
    requires m in s.pending && |a.ids| == |Named(w, s, m, a)| && DistinctFresh(s, a.ids)
    requires m.topic.Reply? && !a.crashed && m.env.correlationId in s.calls ==>
               s.calls[m.env.correlationId].inbox.None?
    requires m.topic.TaskEngine? && !a.crashed ==> Engine.AnswersEnvelope(w.sqrt, s.store, m.env, results)
    ensures Enabled(w, s, Label.Deliver(m, a.(results := results)))
  {
  }
}
