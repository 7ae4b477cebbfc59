/** Every run from finitely many requests ends: each delivery is paid for by a weight over the messages in flight. */
module Termination {
  import opened Wrappers
  import opened Events
  import opened Windows
  import opened Bus
  import opened Blobs
  import opened Environment
  import opened Gateway
  import opened Protocol
  import opened Provenance
  import opened Invariant
  import opened Identity
  import opened Ledger
  import opened Linearizability
  import Router
  import Chunker
  import Engine

  // A unit is what one delivery of a message can cost: itself, and every delivery of what it publishes.

  function EngineUnit(search: bool): nat {
    if search then 1 + MAX_DELIVER else 1
  }

  function DoneUnit(search: bool): nat {
    1 + MAX_DELIVER * EngineUnit(search)
  }

  function EmbedUnit(search: bool): nat {
    1 + MAX_DELIVER * DoneUnit(search)
  }

  function TaskUnit(search: bool): nat {
    1 + MAX_DELIVER * EmbedUnit(search)
  }

  function VisionUnit(search: bool): nat {
    1 + MAX_DELIVER * TaskUnit(search)
  }

  function ChunkUnit(windows: nat): nat {
    1 + windows * (MAX_DELIVER * TaskUnit(false))
  }

  predicate ForSearch(e: Envelope) {
    e.typ == SearchRequested || OriginalType(e.data) == SearchRequested
  }

  /** A bound on the windows the chunker finds under a message's blob URI. */
  type Cap = Envelope -> nat

  function TopicUnit(cap: Cap, t: Topic, e: Envelope): nat {
    match t
    case TaskEmbed => EmbedUnit(ForSearch(e))
    case TaskVision => VisionUnit(ForSearch(e))
    case TaskChunk => ChunkUnit(cap(e))
    case TaskEngine => EngineUnit(ForSearch(e))
    case _ => 1
  }

  function Unit(cap: Cap, t: Topic, e: Envelope): nat {
    if t != Ingress then TopicUnit(cap, t, e)
    else
      match Router.Classify(e)
      case Forward(u) => 1 + MAX_DELIVER * TopicUnit(cap, u, e)
      case _ => 1
  }

  /** Whose deliveries are counted: everyone's, or those caused by one document. */
  datatype Scope = All | Only(docId: string)

  predicate Counts(c: Scope, e: Envelope) {
    c.All? || DocumentID(e.data) == c.docId
  }

  function Times(left: nat, unit: nat): nat {
    left * unit
  }

  function Weight(cap: Cap, c: Scope): Msg -> nat {
    (m: Msg) => if Counts(c, m.env) then Times(m.left, Unit(cap, m.topic, m.env)) else 0
  }

  ghost function Total(f: Msg -> nat, ms: multiset<Msg>): nat
    decreases |ms|
  {
    if ms == multiset{} then 0
    else
      var m :| m in ms;
      f(m) + Total(f, ms - multiset{m})
  }

  lemma {:induction false} TotalRemove(f: Msg -> nat, ms: multiset<Msg>, m: Msg)
    requires m in ms
    ensures Total(f, ms) == f(m) + Total(f, ms - multiset{m})
    decreases |ms|
  {
    var n :| n in ms && Total(f, ms) == f(n) + Total(f, ms - multiset{n});
    if n != m {
      TotalRemove(f, ms - multiset{n}, m);
      TotalRemove(f, ms - multiset{m}, n);
      assert ms - multiset{n} - multiset{m} == ms - multiset{m} - multiset{n};
    }
  }

  lemma TotalAdd(f: Msg -> nat, ms: multiset<Msg>, m: Msg)
    ensures Total(f, ms + multiset{m}) == Total(f, ms) + f(m)
  {
    TotalRemove(f, ms + multiset{m}, m);
    assert ms + multiset{m} - multiset{m} == ms;
  }

  lemma {:induction false} TotalSame(f: Msg -> nat, g: Msg -> nat, ms: multiset<Msg>)
    requires forall m | m in ms :: f(m) == g(m)
    ensures Total(f, ms) == Total(g, ms)
    decreases |ms|
  {
    if ms != multiset{} {
      var m :| m in ms;
      TotalRemove(f, ms, m);
      TotalRemove(g, ms, m);
      TotalSame(f, g, ms - multiset{m});
    }
  }

  /** What a list of publishes adds to the weight. */
  function Spent(cap: Cap, c: Scope, pubs: seq<Pub>): nat {
    if pubs == [] then 0
    else
      var p := pubs[|pubs| - 1];
      Spent(cap, c, pubs[..|pubs| - 1])
      + if p.topic == Dlq || !Counts(c, p.env) then 0 else MAX_DELIVER * Unit(cap, p.topic, p.env)
  }

  lemma SpentOne(cap: Cap, c: Scope, p: Pub)
    ensures Spent(cap, c, [p]) ==
            if p.topic == Dlq || !Counts(c, p.env) then 0 else MAX_DELIVER * Unit(cap, p.topic, p.env)
  {
    assert [p][..0] == [];
  }

  lemma {:induction false} TotalArrivals(cap: Cap, c: Scope, ms: multiset<Msg>, pubs: seq<Pub>)
    ensures Total(Weight(cap, c), ms + Arrivals(pubs)) == Total(Weight(cap, c), ms) + Spent(cap, c, pubs)
  {
    if pubs == [] {
      assert ms + multiset{} == ms;
    } else {
      var n := |pubs| - 1;
      var p := pubs[n];
      TotalArrivals(cap, c, ms, pubs[..n]);
      if p.topic == Dlq {
        assert Arrivals(pubs[..n]) + multiset{} == Arrivals(pubs[..n]);
      } else {
        var m := Msg(p.topic, p.env, MAX_DELIVER);
        TotalAdd(Weight(cap, c), ms + Arrivals(pubs[..n]), m);
        assert ms + Arrivals(pubs) == ms + Arrivals(pubs[..n]) + multiset{m};
      }
    }
  }

  // Every handler's publishes are paid for by its unit.

  lemma ForSearchAt(w: World, x: Src)
    ensures ForSearch(EnvOf(w, x)) <==> !IsIngest(x.root)
  {
  }

  lemma CountsAt(w: World, x: Src, c: Scope)
    requires c.Only? ==> |c.docId| == UUID_LENGTH
    ensures Counts(c, EnvOf(w, x)) <==> Counts(c, x.root)
  {
  }

  lemma WindowUnit(cap: Cap, r: Root, id: string, text: string, uuid: string)
    requires Route(r) == TaskChunk && IsIngest(r)
    ensures Unit(cap, Ingress, Chunker.Completed(r, id, text, uuid)) == TaskUnit(false)
  {
  }

  lemma SpentAttempt(cap: Cap, c: Scope, pubs: seq<Pub>, env: Envelope, up: bool)
    ensures Spent(cap, c, pubs + Attempt(Ingress, env, up)) <=
            Spent(cap, c, pubs) + MAX_DELIVER * Unit(cap, Ingress, env)
  {
    if up {
      assert (pubs + [Pub(Ingress, env)])[..|pubs|] == pubs;
    } else {
      assert pubs + [] == pubs;
    }
  }

  lemma OneMoreUnit(n: nat, unit: nat)
    ensures (n + 1) * unit == n * unit + unit
  {
  }

  lemma {:induction false} ChunkerSpends(cap: Cap, c: Scope, r: Root, texts: seq<string>, a: Answers)
    requires Route(r) == TaskChunk && IsIngest(r)
    ensures Spent(cap, c, Chunker.Emits(r, texts, a)) <= |texts| * (MAX_DELIVER * TaskUnit(false))
  {
    if texts != [] {
      var n := |texts| - 1;
      ChunkerSpends(cap, c, r, texts[..n], a);
      var out := Chunker.Completed(r, a.Id(n), texts[n], a.uuid);
      WindowUnit(cap, r, a.Id(n), texts[n], a.uuid);
      SpentAttempt(cap, c, Chunker.Emits(r, texts[..n], a), out, a.Up(n));
      OneMoreUnit(n, MAX_DELIVER * TaskUnit(false));
    }
  }

  lemma RouterSpends(w: World, s: State, cap: Cap, c: Scope, m: Msg, a: Answers, x: Src)
    requires m.env == EnvOf(w, x) && m.topic == Ingress && Counts(c, m.env)
    ensures 1 + Spent(cap, c, React(w, s, m, a).emits) <= Unit(cap, m.topic, m.env)
  {
    ClassifyAt(w, x);
    SpentOne(cap, c, Pub(Target(x), m.env));
  }

  lemma EmbedderSpends(w: World, s: State, cap: Cap, c: Scope, m: Msg, a: Answers, x: Src)
    requires ValidSrc(w, s, x) && m.env == EnvOf(w, x) && m.topic == TaskEmbed == Target(x)
    ensures 1 + Spent(cap, c, React(w, s, m, a).emits) <= Unit(cap, m.topic, m.env)
  {
    EmbedAt(w, s, x, a);
    ForSearchAt(w, x);
    ForSearchAt(w, Embedded(x));
    ClassifyAt(w, Embedded(x));
    SpentOne(cap, c, Pub(Ingress, EnvOf(w, Embedded(x))));
  }

  lemma VisionSpends(w: World, s: State, cap: Cap, c: Scope, m: Msg, a: Answers, x: Src)
    requires ValidSrc(w, s, x) && m.env == EnvOf(w, x) && m.topic == TaskVision == Target(x)
    ensures 1 + Spent(cap, c, React(w, s, m, a).emits) <= Unit(cap, m.topic, m.env)
  {
    VisionAt(w, s, x, a);
    ForSearchAt(w, x);
    var image := Download(w.backend, s.blobs, x.root.data.blobURI);
    if image.Some? {
      var y := Src(AtTask, x.root, image.value, 0, DocOf(x.root) + "-vision");
      ForSearchAt(w, y);
      ClassifyAt(w, y);
      SpentOne(cap, c, Pub(Ingress, EnvOf(w, y)));
    }
  }

  lemma EngineSpends(w: World, s: State, cap: Cap, c: Scope, m: Msg, a: Answers, x: Src)
    requires ValidSrc(w, s, x) && m.env == EnvOf(w, x) && m.topic == TaskEngine == Target(x)
    ensures 1 + Spent(cap, c, React(w, s, m, a).emits) <= Unit(cap, m.topic, m.env)
  {
    EngineAt(w, s, x, a);
    ForSearchAt(w, x);
    if !IsIngest(x.root) {
      SpentOne(cap, c, Pub(Reply(m.env.correlationId), Engine.Reply(m.env, a).value));
    }
  }

  /** The bound covers what this delivery finds. */
  predicate Covers(w: World, s: State, cap: Cap, m: Msg) {
    m.topic == TaskChunk ==> |Chunker.Texts(w.backend, s.blobs, m.env)| <= cap(m.env)
  }

  lemma ChunkSpends(w: World, s: State, cap: Cap, c: Scope, m: Msg, a: Answers, x: Src)
    requires m.env == EnvOf(w, x) && m.topic == TaskChunk == Target(x) && Covers(w, s, cap, m)
    ensures 1 + Spent(cap, c, React(w, s, m, a).emits) <= Unit(cap, m.topic, m.env)
  {
    if IsIngest(x.root) {
      var content := Download(w.backend, s.blobs, x.root.data.blobURI);
      if content.Some? {
        var all := Published(content.value);
        var texts := all[..a.Reached(|all|)];
        ChunkerSpends(cap, c, x.root, texts, a);
        MoreUnits(|texts|, cap(m.env), MAX_DELIVER * TaskUnit(false));
      }
    }
  }

  lemma MoreUnits(n: nat, k: nat, unit: nat)
    requires n <= k
    ensures n * unit <= k * unit
  {
  }

  lemma HandlerSpends(w: World, s: State, cap: Cap, c: Scope, m: Msg, a: Answers, x: Src)
    requires ValidSrc(w, s, x) && m.env == EnvOf(w, x) && TopicOk(m.topic, x) && Counts(c, m.env)
    requires Covers(w, s, cap, m)
    ensures 1 + Spent(cap, c, React(w, s, m, a).emits) <= Unit(cap, m.topic, m.env)
  {
    match m.topic
    case Ingress => RouterSpends(w, s, cap, c, m, a, x);
    case TaskEmbed => EmbedderSpends(w, s, cap, c, m, a, x);
    case TaskVision => VisionSpends(w, s, cap, c, m, a, x);
    case TaskEngine => EngineSpends(w, s, cap, c, m, a, x);
    case TaskChunk => ChunkSpends(w, s, cap, c, m, a, x);
  }

  // What does not count stays uncounted.

  lemma {:induction false} SpentNothing(cap: Cap, c: Scope, pubs: seq<Pub>)
    requires forall p | p in pubs :: !Counts(c, p.env)
    ensures Spent(cap, c, pubs) == 0
  {
    if pubs != [] {
      var n := |pubs| - 1;
      assert forall p | p in pubs[..n] :: p in pubs;
      assert pubs[n] in pubs;
      SpentNothing(cap, c, pubs[..n]);
    }
  }

  ghost predicate ScopeOk(c: Scope) {
    c.Only? ==> |c.docId| == UUID_LENGTH
  }

  lemma EmitsUncounted(w: World, s: State, c: Scope, m: Msg, a: Answers, x: Src, p: Pub)
    requires ValidSrc(w, s, x) && m.env == EnvOf(w, x) && TopicOk(m.topic, x) && ScopeOk(c)
    requires !Counts(c, m.env) && p in React(w, s, m, a).emits
    ensures !Counts(c, p.env)
  {
    CountsAt(w, x, c);
    match m.topic
    case Ingress => ClassifyAt(w, x);
    case TaskEmbed =>
      EmbedAt(w, s, x, a);
      CountsAt(w, Embedded(x), c);
    case TaskVision =>
      VisionAt(w, s, x, a);
      var image := Download(w.backend, s.blobs, x.root.data.blobURI);
      CountsAt(w, Src(AtTask, x.root, image.value, 0, DocOf(x.root) + "-vision"), c);
    case TaskEngine => EngineAt(w, s, x, a);
    case TaskChunk => WindowsUncounted(w, s, c, m, a, x, p);
  }

  lemma WindowsUncounted(w: World, s: State, c: Scope, m: Msg, a: Answers, x: Src, p: Pub)
    requires m.env == EnvOf(w, x) && m.topic == TaskChunk == Target(x) && ScopeOk(c) && !Counts(c, x.root)
    requires p in React(w, s, m, a).emits
    ensures !Counts(c, p.env)
  {
    var j := ChunkPub(w, s, m, a, x, p);
    CountsAt(w, ChunkSrc(x.root, Download(w.backend, s.blobs, x.root.data.blobURI).value, j, a.Id(j)), c);
  }

  lemma UncountedPaysNothing(w: World, s: State, cap: Cap, c: Scope, m: Msg, a: Answers, x: Src)
    requires ValidSrc(w, s, x) && m.env == EnvOf(w, x) && TopicOk(m.topic, x) && ScopeOk(c) && !Counts(c, m.env)
    ensures Spent(cap, c, React(w, s, m, a).emits) == 0
  {
    forall p | p in React(w, s, m, a).emits ensures !Counts(c, p.env) {
      EmitsUncounted(w, s, c, m, a, x, p);
    }
    SpentNothing(cap, c, React(w, s, m, a).emits);
  }

  lemma RepliesSpendNothing(w: World, s: State, cap: Cap, c: Scope, m: Msg, a: Answers)
    requires m.topic.Reply?
    ensures Spent(cap, c, React(w, s, m, a).emits) == 0 && Unit(cap, m.topic, m.env) == 1
  {
    RepliesEmitNothing(w, s, m, a);
  }

  /** A delivery pays one for itself, if it counts, and for everything it publishes. */
  lemma DeliveryPays(w: World, s: State, cap: Cap, c: Scope, m: Msg, a: Answers)
    requires Inv(w, s) && ScopeOk(c) && m in s.pending && Covers(w, s, cap, m)
    ensures (if Counts(c, m.env) then 1 else 0) + Spent(cap, c, React(w, s, m, a).emits) <=
            if Counts(c, m.env) then Unit(cap, m.topic, m.env) else 0
  {
    if m.topic.Reply? {
      RepliesSpendNothing(w, s, cap, c, m, a);
    } else {
      var x := PlaceOf(w, s, m);
      if Counts(c, m.env) {
        HandlerSpends(w, s, cap, c, m, a, x);
      } else {
        UncountedPaysNothing(w, s, cap, c, m, a, x);
      }
    }
  }

  lemma WeightAt(cap: Cap, c: Scope, m: Msg, left: nat)
    ensures Weight(cap, c)(m.(left := left)) == if Counts(c, m.env) then left * Unit(cap, m.topic, m.env) else 0
  {
  }

  lemma LeftStep(left: nat, unit: nat)
    requires 1 <= left
    ensures (left - 1) * unit + unit == left * unit && unit <= left * unit
  {
  }

  lemma Lowered(f: Msg -> nat, ms: multiset<Msg>, m: Msg, settled: Option<Settlement>, paid: nat)
    requires m in ms && paid <= f(m)
    requires m.left > 1 ==> f(m.(left := m.left - 1)) + paid <= f(m)
    ensures Total(f, ms - multiset{m} + Redelivery(m, settled)) + paid <= Total(f, ms)
  {
    TotalRemove(f, ms, m);
    if Redelivery(m, settled) == multiset{} {
      assert ms - multiset{m} + multiset{} == ms - multiset{m};
    } else {
      TotalAdd(f, ms - multiset{m}, m.(left := m.left - 1));
    }
  }

  lemma OneLess(cap: Cap, c: Scope, ms: multiset<Msg>, m: Msg, settled: Option<Settlement>)
    requires m in ms && 1 <= m.left
    ensures Total(Weight(cap, c), ms - multiset{m} + Redelivery(m, settled))
            + (if Counts(c, m.env) then Unit(cap, m.topic, m.env) else 0)
            <= Total(Weight(cap, c), ms)
  {
    var unit := Unit(cap, m.topic, m.env);
    WeightAt(cap, c, m, m.left);
    assert m.(left := m.left) == m;
    WeightAt(cap, c, m, m.left - 1);
    LeftStep(m.left, unit);
    Lowered(Weight(cap, c), ms, m, settled, if Counts(c, m.env) then unit else 0);
  }

  lemma DeliveredPending(w: World, s: State, m: Msg, a: Answers)
    ensures Next(w, s, Deliver(m, a)).pending ==
            s.pending + Arrivals(React(w, s, m, a).emits) - multiset{m} + Redelivery(m, Settled(React(w, s, m, a), a))
  {
  }

  /** Every delivery that counts lowers the weight, whatever it publishes. */
  lemma DeliveryLowers(w: World, s: State, cap: Cap, c: Scope, m: Msg, a: Answers)
    requires Inv(w, s) && ScopeOk(c) && Enabled(w, s, Deliver(m, a)) && Covers(w, s, cap, m)
    ensures Total(Weight(cap, c), Next(w, s, Deliver(m, a)).pending) + (if Counts(c, m.env) then 1 else 0)
            <= Total(Weight(cap, c), s.pending)
  {
    var settled := Settled(React(w, s, m, a), a);
    DeliveredPending(w, s, m, a);
    UnitPositive(cap, m.topic, m.env);
    var emits := React(w, s, m, a).emits;
    TotalArrivals(cap, c, s.pending, emits);
    OneLess(cap, c, s.pending + Arrivals(emits), m, settled);
    DeliveryPays(w, s, cap, c, m, a);
  }

  lemma UnitPositive(cap: Cap, t: Topic, e: Envelope)
    ensures 1 <= Unit(cap, t, e)
  {
  }

  /** What an accepted request may cost. */
  function Cost(cap: Cap, r: Envelope): nat {
    MAX_DELIVER * Unit(cap, Ingress, r)
  }

  ghost function Budget(cap: Cap, c: Scope, stream: seq<Pub>): nat {
    if stream == [] then 0
    else
      var p := stream[|stream| - 1];
      Budget(cap, c, stream[..|stream| - 1])
      + if p.topic == Ingress && IsRoot(p.env) && Counts(c, p.env) then Cost(cap, p.env) else 0
  }

  lemma {:induction false} BudgetAppend(cap: Cap, c: Scope, a: seq<Pub>, b: seq<Pub>)
    ensures Budget(cap, c, a + b) == Budget(cap, c, a) + Budget(cap, c, b)
  {
    if b == [] {
      assert a + b == a;
    } else {
      var n := |b| - 1;
      BudgetAppend(cap, c, a, b[..n]);
      assert (a + b)[..|a + b| - 1] == a + b[..n];
    }
  }

  lemma BudgetOne(cap: Cap, c: Scope, p: Pub)
    ensures Budget(cap, c, [p]) ==
            if p.topic == Ingress && IsRoot(p.env) && Counts(c, p.env) then Cost(cap, p.env) else 0
  {
    assert [p][..0] == [];
  }

  lemma {:induction false} NoRootsNoBudget(cap: Cap, c: Scope, pubs: seq<Pub>)
    requires forall p | p in pubs && p.topic == Ingress && Counts(c, p.env) :: !IsRoot(p.env)
    ensures Budget(cap, c, pubs) == 0
  {
    if pubs != [] {
      var n := |pubs| - 1;
      assert pubs[n] in pubs;
      NoRootsNoBudget(cap, c, pubs[..n]);
    }
  }

  lemma DeliveryNoRoot(w: World, s: State, m: Msg, a: Answers, p: Pub)
    requires Inv(w, s) && m in s.pending && p in React(w, s, m, a).emits && p.topic == Ingress
    ensures !IsRoot(p.env)
  {
    if IsRoot(p.env) {
      DeliverEmitsRoot(w, s, m, a, p);
      var x := PlaceOf(w, s, m);
      RouterLeavesIngress(w, m.env, a, x, p);
    }
  }

  lemma RouterLeavesIngress(w: World, env: Envelope, a: Answers, x: Src, p: Pub)
    requires env == EnvOf(w, x) && p in Router.React(env, a).emits
    ensures p.topic != Ingress
  {
    ClassifyAt(w, x);
  }

  /** No handler announces a request on ingress again. */
  lemma DeliveriesAddNoBudget(w: World, s: State, cap: Cap, c: Scope, m: Msg, a: Answers)
    requires Inv(w, s) && m in s.pending
    ensures Budget(cap, c, Emitted(w, s, Deliver(m, a))) == 0
  {
    var pubs := Emitted(w, s, Deliver(m, a));
    forall p | p in pubs && p.topic == Ingress && Counts(c, p.env) ensures !IsRoot(p.env) {
      DeliveryNoRoot(w, s, m, a, p);
    }
    NoRootsNoBudget(cap, c, pubs);
  }

  /** A request announces at most one root, and its budget covers what that adds to the weight. */
  lemma RequestBudget(w: World, s: State, l: Label, cap: Cap, c: Scope)
    requires Inv(w, s) && Enabled(w, s, l) && !l.Deliver?
    ensures Spent(cap, c, Emitted(w, s, l)) == Budget(cap, c, Emitted(w, s, l))
    ensures !l.Ingest? && !l.Search? ==> Budget(cap, c, Emitted(w, s, l)) == 0
    ensures Emitted(w, s, l) != [] ==>
              && IsRoot(Emitted(w, s, l)[0].env)
              && Budget(cap, c, Emitted(w, s, l)) ==
                 if Counts(c, Emitted(w, s, l)[0].env) then Cost(cap, Emitted(w, s, l)[0].env) else 0
  {
    if (l.Ingest? || l.Search?) && Emitted(w, s, l) != [] {
      var p := Emitted(w, s, l)[0];
      RequestEmits(w, s, l, p);
      SpentOne(cap, c, p);
      BudgetOne(cap, c, p);
    }
  }

  ghost function Deliveries(run: seq<Label>, c: Scope): nat {
    if run == [] then 0
    else
      var l := run[|run| - 1];
      Deliveries(run[..|run| - 1], c) + if l.Deliver? && Counts(c, l.m.env) then 1 else 0
  }

  ghost predicate CoversStep(w: World, s: State, cap: Cap, l: Label) {
    l.Deliver? ==> Covers(w, s, cap, l.m)
  }

  /** The bound covers what every delivery of the run finds. */
  ghost predicate CoversRun(w: World, run: seq<Label>, cap: Cap) {
    run == [] || (CoversRun(w, run[..|run| - 1], cap) && CoversStep(w, After(w, run[..|run| - 1]), cap, run[|run| - 1]))
  }

  lemma PaidNext(w: World, s: State, l: Label, cap: Cap, c: Scope, spent: nat)
    requires Inv(w, s) && ScopeOk(c) && Enabled(w, s, l) && CoversStep(w, s, cap, l)
    requires spent + Total(Weight(cap, c), s.pending) <= Budget(cap, c, s.stream)
    ensures var s' := Next(w, s, l);
            spent + (if l.Deliver? && Counts(c, l.m.env) then 1 else 0) + Total(Weight(cap, c), s'.pending)
            <= Budget(cap, c, s'.stream)
  {
    StreamAfter(w, s, l);
    BudgetAppend(cap, c, s.stream, Emitted(w, s, l));
    if l.Deliver? {
      DeliveryLowers(w, s, cap, c, l.m, l.a);
    } else {
      PendingAfterRequest(w, s, l);
      TotalArrivals(cap, c, s.pending, Emitted(w, s, l));
      RequestBudget(w, s, l, cap, c);
    }
  }

  /** Deliveries made, plus the weight still in flight, never exceed the cost of the requests accepted. */
  lemma {:induction false} DeliveriesPaid(w: World, run: seq<Label>, cap: Cap, c: Scope)
    requires IsRun(w, run) && CoversRun(w, run, cap) && ScopeOk(c)
    ensures Deliveries(run, c) + Total(Weight(cap, c), After(w, run).pending) <= Budget(cap, c, After(w, run).stream)
  {
    if run != [] {
      var n := |run| - 1;
      DeliveriesPaid(w, run[..n], cap, c);
      InvReachable(w, run[..n]);
      PaidNext(w, After(w, run[..n]), run[n], cap, c, Deliveries(run[..n], c));
    }
  }

  // Runs are finite: their length is bounded by the requests in them.

  ghost function Requests(run: seq<Label>): nat {
    if run == [] then 0
    else
      var l := run[|run| - 1];
      Requests(run[..|run| - 1]) + if l.Ingest? || l.Search? then 1 else 0
  }

  ghost function Restarts(run: seq<Label>): nat {
    if run == [] then 0 else Restarts(run[..|run| - 1]) + if run[|run| - 1].Restart? then 1 else 0
  }

  function Max(a: nat, b: nat): nat {
    if a < b then b else a
  }

  /** The most windows any content uploaded by the requests of a run has. */
  ghost function MostWindows(w: World, run: seq<Label>): nat {
    if run == [] then 0
    else
      var us := UploadsOf(w, run[|run| - 1]).1;
      Max(MostWindows(w, run[..|run| - 1]), if us == [] then 0 else |Published(us[0].content)|)
  }

  ghost predicate VersionsWithin(s: State, n: nat) {
    forall v | v in s.hist.versions :: |Published(v.1)| <= n
  }

  lemma {:induction false} VersionsBounded(w: World, run: seq<Label>)
    ensures VersionsWithin(After(w, run), MostWindows(w, run))
  {
    if run != [] {
      var n := |run| - 1;
      var s, l := After(w, run[..n]), run[n];
      VersionsBounded(w, run[..n]);
      VersionsAfter(w, s, l);
      OneUpload(w, l);
      forall v | v in After(w, run).hist.versions ensures |Published(v.1)| <= MostWindows(w, run) {
        if v !in s.hist.versions {
          OneNewVersion(w.backend, UploadsOf(w, l).0, UploadsOf(w, l).1, v);
        }
      }
    }
  }

  lemma CoveredByVersions(w: World, s: State, m: Msg, cap: Cap, n: nat)
    requires Inv(w, s) && m in s.pending && VersionsWithin(s, n) && forall e :: n <= cap(e)
    ensures Covers(w, s, cap, m)
  {
    if m.topic == TaskChunk {
      var x := PlaceOf(w, s, m);
      RootOfChunk(w, m, x);
      DownloadIsVersion(w, s, x.root);
    }
  }

  lemma RootOfChunk(w: World, m: Msg, x: Src)
    requires m.env == EnvOf(w, x) && TopicOk(m.topic, x) && m.topic == TaskChunk
    ensures m.env == x.root && Route(x.root) == TaskChunk && DecodeIngest(m.env.data).blobURI == x.root.data.blobURI
  {
  }

  lemma {:induction false} CoveredRun(w: World, run: seq<Label>, cap: Cap)
    requires IsRun(w, run) && forall e :: MostWindows(w, run) <= cap(e)
    ensures CoversRun(w, run, cap)
  {
    if run != [] {
      var n := |run| - 1;
      CoveredRun(w, run[..n], cap);
      InvReachable(w, run[..n]);
      VersionsBounded(w, run[..n]);
      if run[n].Deliver? {
        CoveredByVersions(w, After(w, run[..n]), run[n].m, cap, MostWindows(w, run[..n]));
      }
    }
  }

  /** What any request may cost when no content has more than n windows. */
  function DearestRequest(n: nat): nat {
    MAX_DELIVER * (1 + MAX_DELIVER * (VisionUnit(true) + ChunkUnit(n)))
  }

  lemma CostAtMost(w: World, cap: Cap, r: Root, n: nat)
    requires cap(r) <= n
    ensures Cost(cap, r) <= DearestRequest(n)
  {
    ClassifyAt(w, Src(AtRoot, r, "", 0, ""));
    MoreUnits(cap(r), n, MAX_DELIVER * TaskUnit(false));
  }

  lemma {:induction false} BudgetAtMost(w: World, run: seq<Label>, cap: Cap, d: nat)
    requires IsRun(w, run) && forall r: Root :: Cost(cap, r) <= d
    ensures Budget(cap, All, After(w, run).stream) <= Requests(run) * d
  {
    if run != [] {
      var k := |run| - 1;
      BudgetAtMost(w, run[..k], cap, d);
      InvReachable(w, run[..k]);
      BudgetStep(w, After(w, run[..k]), run[k], cap, d);
      Accumulate(Budget(cap, All, After(w, run[..k]).stream), Budget(cap, All, After(w, run).stream),
                 Requests(run[..k]), Requests(run), d);
    }
  }

  lemma Accumulate(before: nat, after: nat, n: nat, k: nat, d: nat)
    requires before <= n * d && (k == n || k == n + 1) && after <= before + if k == n + 1 then d else 0
    ensures after <= k * d
  {
    OneMoreUnit(n, d);
  }

  lemma BudgetStep(w: World, s: State, l: Label, cap: Cap, d: nat)
    requires Inv(w, s) && Enabled(w, s, l) && forall r: Root :: Cost(cap, r) <= d
    ensures Budget(cap, All, Next(w, s, l).stream) <=
            Budget(cap, All, s.stream) + if l.Ingest? || l.Search? then d else 0
  {
    StreamAfter(w, s, l);
    BudgetAppend(cap, All, s.stream, Emitted(w, s, l));
    if l.Deliver? {
      DeliveriesAddNoBudget(w, s, cap, All, l.m, l.a);
    } else {
      RequestBudget(w, s, l, cap, All);
    }
  }

  lemma CallsChange(w: World, s: State, l: Label)
    requires Enabled(w, s, l)
    ensures |Next(w, s, l).calls| <= |s.calls| + 1
    ensures !l.Search? ==> |Next(w, s, l).calls| <= |s.calls|
    ensures l.Return? || l.Timeout? ==> |Next(w, s, l).calls| == |s.calls| - 1
  {
    CallsOfNext(w, s, l);
    match l
    case Ingest(q, n, upOk, pubOk) =>
    case Search(q, corr, upOk, pubOk) => CallAdded(s.calls, corr, Call(q.tenant, None));
    case Deliver(m, a) => DeliveredSize(s.calls, m.env);
    case Return(_, corr, _) => CallRemoved(s.calls, corr);
    case Timeout(_, corr) => CallRemoved(s.calls, corr);
    case Restart(_, _, _) =>
  }

  lemma CallAdded(calls: Calls, corr: string, call: Call)
    requires corr !in calls
    ensures |calls[corr := call]| == |calls| + 1
  {
    assert calls[corr := call].Keys == calls.Keys + {corr};
  }

  lemma CallRemoved(calls: Calls, corr: string)
    requires corr in calls
    ensures |calls - {corr}| == |calls| - 1
  {
    assert (calls - {corr}).Keys == calls.Keys - {corr};
  }

  lemma DeliveredSize(calls: Calls, env: Envelope)
    ensures |Delivered(calls, env)| == |calls|
  {
    assert Delivered(calls, env).Keys == calls.Keys;
  }

  lemma {:induction false} RunLength(w: World, run: seq<Label>)
    requires IsRun(w, run)
    ensures |run| + |After(w, run).calls| <= 2 * Requests(run) + Deliveries(run, All) + Restarts(run)
  {
    if run != [] {
      var n := |run| - 1;
      RunLength(w, run[..n]);
      CallsChange(w, After(w, run[..n]), run[n]);
    }
  }

  /** Termination. The length of a run, restarts aside, is bounded by the number of its requests and the size of what
      they upload, however its deliveries fail, crash or are repeated, and even if uploads overwrite one another. */
  lemma RunsEnd(w: World, run: seq<Label>)
    requires IsRun(w, run)
    ensures |run| <= Requests(run) * (2 + DearestRequest(MostWindows(w, run))) + Restarts(run)
  {
    RunLength(w, run);
    DeliveriesBounded(w, run);
    Distribute(Requests(run), DearestRequest(MostWindows(w, run)));
  }

  lemma DeliveriesBounded(w: World, run: seq<Label>)
    requires IsRun(w, run)
    ensures Deliveries(run, All) <= Requests(run) * DearestRequest(MostWindows(w, run))
  {
    var n := MostWindows(w, run);
    var cap: Cap := (e: Envelope) => n;
    CoveredRun(w, run, cap);
    DeliveriesPaid(w, run, cap, All);
    forall r: Root ensures Cost(cap, r) <= DearestRequest(n) { CostAtMost(w, cap, r, n); }
    BudgetAtMost(w, run, cap, DearestRequest(n));
  }

  lemma Distribute(k: nat, d: nat)
    ensures k * (2 + d) == 2 * k + k * d
  {
  }

  // The cost of one document.

  lemma NewBudget(w: World, s: State, l: Label, cap: Cap, d: string)
    requires Inv(w, s) && Enabled(w, s, l) && |d| == UUID_LENGTH
    ensures var b := Budget(cap, Only(d), Emitted(w, s, l));
            if l.Ingest? && l.n.docId == d && Emitted(w, s, l) != [] then b == Cost(cap, Emitted(w, s, l)[0].env)
            else b == 0
  {
    if l.Deliver? {
      DeliveriesAddNoBudget(w, s, cap, Only(d), l.m, l.a);
    } else if Emitted(w, s, l) != [] {
      var p := Emitted(w, s, l)[0];
      RequestEmits(w, s, l, p);
      BudgetOne(cap, Only(d), p);
    }
  }

  ghost predicate DocRoot(s: State, d: string, r: Root) {
    Pub(Ingress, r) in s.stream && IsIngest(r) && r.data.documentId == d
  }

  /** What the stream holds of a document costs nothing before it is accepted, and its cost afterwards. */
  ghost predicate DocBudgetOk(s: State, cap: Cap, d: string) {
    && ((forall r: Root :: !DocRoot(s, d, r)) ==> Budget(cap, Only(d), s.stream) == 0)
    && (forall r: Root | DocRoot(s, d, r) :: Budget(cap, Only(d), s.stream) == Cost(cap, r))
  }

  lemma DocBudgetNext(w: World, s: State, l: Label, cap: Cap, d: string)
    requires Inv(w, s) && Unique(s) && Enabled(w, s, l) && |d| == UUID_LENGTH && DocBudgetOk(s, cap, d)
    ensures DocBudgetOk(Next(w, s, l), cap, d)
  {
    var s' := Next(w, s, l);
    StreamAfter(w, s, l);
    BudgetAppend(cap, Only(d), s.stream, Emitted(w, s, l));
    NewBudget(w, s, l, cap, d);
    if l.Ingest? && l.n.docId == d && Emitted(w, s, l) != [] {
      DocAccepted(w, s, l, d);
      FirstDocBudget(s, s', cap, d, Emitted(w, s, l)[0].env);
    } else {
      forall r: Root ensures DocRoot(s', d, r) <==> DocRoot(s, d, r) {
        DocUntouched(w, s, l, d, r);
      }
      SameDocBudget(s, s', cap, d);
    }
  }

  lemma FirstDocBudget(s: State, s': State, cap: Cap, d: string, r: Root)
    requires DocBudgetOk(s, cap, d) && forall q: Root :: !DocRoot(s, d, q) && (DocRoot(s', d, q) <==> q == r)
    requires Budget(cap, Only(d), s'.stream) == Budget(cap, Only(d), s.stream) + Cost(cap, r)
    ensures DocBudgetOk(s', cap, d)
  {
    assert DocRoot(s', d, r);
  }

  lemma SameDocBudget(s: State, s': State, cap: Cap, d: string)
    requires DocBudgetOk(s, cap, d) && Budget(cap, Only(d), s'.stream) == Budget(cap, Only(d), s.stream)
    requires forall r: Root :: DocRoot(s', d, r) <==> DocRoot(s, d, r)
    ensures DocBudgetOk(s', cap, d)
  {
  }

  lemma DocUntouched(w: World, s: State, l: Label, d: string, r: Root)
    requires Inv(w, s) && Enabled(w, s, l) && !(l.Ingest? && l.n.docId == d && Emitted(w, s, l) != [])
    ensures DocRoot(Next(w, s, l), d, r) <==> DocRoot(s, d, r)
  {
    if DocRoot(s, d, r) {
      NextGrows(w, s, l);
    } else if DocRoot(Next(w, s, l), d, r) {
      OldDocRoot(w, s, l, d, r);
    }
  }

  lemma DocAccepted(w: World, s: State, l: Label, d: string)
    requires Inv(w, s) && Unique(s) && Enabled(w, s, l)
    requires l.Ingest? && l.n.docId == d && Emitted(w, s, l) != []
    ensures var r := Emitted(w, s, l)[0].env;
            && IsRoot(r) && (forall q: Root :: !DocRoot(s, d, q))
            && (forall q: Root :: DocRoot(Next(w, s, l), d, q) <==> q == r)
  {
    var p := Emitted(w, s, l)[0];
    RequestEmits(w, s, l, p);
    StreamAfter(w, s, l);
    forall q: Root ensures !DocRoot(s, d, q) {
      var pub := Pub(Ingress, q);
      assert pub in s.stream && IsIngestRoot(pub.env) ==> pub.env.data.documentId in s.hist.used;
    }
    forall q: Root ensures DocRoot(Next(w, s, l), d, q) <==> q == p.env {
      assert DocRoot(Next(w, s, l), d, q) ==> Pub(Ingress, q) in Emitted(w, s, l);
    }
  }

  lemma OldDocRoot(w: World, s: State, l: Label, d: string, r: Root)
    requires Inv(w, s) && Enabled(w, s, l) && DocRoot(Next(w, s, l), d, r)
    requires !(l.Ingest? && l.n.docId == d && Emitted(w, s, l) != [])
    ensures DocRoot(s, d, r)
  {
    StreamAfter(w, s, l);
    var p := Pub(Ingress, r);
    if p !in s.stream {
      if l.Deliver? {
        DeliverEmitsRoot(w, s, l.m, l.a, p);
      } else {
        RequestEmits(w, s, l, p);
      }
    }
  }

  lemma {:induction false} DocBudget(w: World, run: seq<Label>, cap: Cap, d: string)
    requires IsRun(w, run) && |d| == UUID_LENGTH
    ensures DocBudgetOk(After(w, run), cap, d)
  {
    if run != [] {
      var n := |run| - 1;
      DocBudget(w, run[..n], cap, d);
      UniqueReachable(w, run[..n]);
      DocBudgetNext(w, After(w, run[..n]), run[n], cap, d);
    }
  }

  // A request whose URI was given one content is covered by that content's windows.

  lemma TextsAtMost(w: World, s: State, r: Root)
    requires Inv(w, s) && Pub(Ingress, r) in s.stream && OneVersion(s, r) && Route(r) == TaskChunk
    ensures |Chunker.Texts(w.backend, s.blobs, r)| <= |Pieces(w, s, r)|
  {
    DownloadContent(w, s, r);
  }

  lemma CoveredByContent(w: World, s: State, m: Msg, f: State, r: Root, cap: Cap)
    requires Inv(w, s) && Inv(w, f) && Grows(s, f) && Pub(Ingress, r) in s.stream && OneVersion(f, r)
    requires m.env == r && Route(r) == TaskChunk && |Pieces(w, f, r)| <= cap(r)
    ensures Covers(w, s, cap, m)
  {
    ContentKept(w, s, f, r);
    TextsAtMost(w, s, r);
  }

  lemma CoveredByVersion(w: World, s: State, m: Msg, x: Src, cap: Cap, n: nat)
    requires Inv(w, s) && Pub(Ingress, x.root) in s.stream && m.env == x.root
    requires DecodeIngest(m.env.data).blobURI == x.root.data.blobURI && VersionsWithin(s, n) && n <= cap(m.env)
    ensures Covers(w, s, cap, m)
  {
    DownloadIsVersion(w, s, x.root);
  }

  lemma CoveredStep(w: World, s: State, m: Msg, f: State, r: Root, cap: Cap, n: nat)
    requires Inv(w, s) && Inv(w, f) && Grows(s, f) && OneVersion(f, r) && m in s.pending
    requires VersionsWithin(s, n) && |Pieces(w, f, r)| <= cap(r) && forall e | e != r :: n <= cap(e)
    ensures Covers(w, s, cap, m)
  {
    if m.topic == TaskChunk {
      var x := PlaceOf(w, s, m);
      RootOfChunk(w, m, x);
      if m.env == r {
        CoveredByContent(w, s, m, f, r, cap);
      } else {
        CoveredByVersion(w, s, m, x, cap, n);
      }
    }
  }

  lemma {:induction false} CoveredRunBy(w: World, run: seq<Label>, f: State, r: Root, cap: Cap)
    requires IsRun(w, run) && Grows(After(w, run), f) && Inv(w, f) && OneVersion(f, r)
    requires |Pieces(w, f, r)| <= cap(r) && forall e | e != r :: MostWindows(w, run) <= cap(e)
    ensures CoversRun(w, run, cap)
  {
    if run != [] {
      var n := |run| - 1;
      var s := After(w, run[..n]);
      NextGrows(w, s, run[n]);
      GrowsOn(s, After(w, run), f);
      CoveredRunBy(w, run[..n], f, r, cap);
      InvReachable(w, run[..n]);
      VersionsBounded(w, run[..n]);
      if run[n].Deliver? {
        CoveredStep(w, s, run[n].m, f, r, cap, MostWindows(w, run[..n]));
      }
    }
  }

  /** An accepted document causes at most 5 + 5^2 + 5^3 + 5^4 deliveries on the direct route and, if its URI was given
      one content, 5 + ... + 5^6 as an image and 5 + 5^2 + n (5^3 + ... + 5^6) as a text blob with n non-blank
      windows. */
  lemma DocumentCost(w: World, run: seq<Label>, r: Root)
    requires IsRun(w, run) && IsIngest(r) && Pub(Ingress, r) in After(w, run).stream && OneVersion(After(w, run), r)
    ensures Deliveries(run, Only(r.data.documentId)) <=
            match Route(r)
            case TaskEmbed => 5 + 25 + 125 + 625
            case TaskVision => 5 + 25 + 125 + 625 + 3125 + 15625
            case _ => 5 + 25 + |Pieces(w, After(w, run), r)| * (125 + 625 + 3125 + 15625)
  {
    var cap := WithinItsCap(w, run, r);
    CostOf(w, cap, r, |Pieces(w, After(w, run), r)|);
  }

  lemma WithinItsCap(w: World, run: seq<Label>, r: Root) returns (cap: Cap)
    requires IsRun(w, run) && IsIngest(r) && Pub(Ingress, r) in After(w, run).stream && OneVersion(After(w, run), r)
    ensures cap(r) == |Pieces(w, After(w, run), r)| && Deliveries(run, Only(r.data.documentId)) <= Cost(cap, r)
  {
    var n, most := |Pieces(w, After(w, run), r)|, MostWindows(w, run);
    cap := (e: Envelope) => if e == r then n else most;
    WithinCost(w, run, r, cap);
  }

  lemma WithinCost(w: World, run: seq<Label>, r: Root, cap: Cap)
    requires IsRun(w, run) && IsIngest(r) && Pub(Ingress, r) in After(w, run).stream && OneVersion(After(w, run), r)
    requires |Pieces(w, After(w, run), r)| <= cap(r) && forall e | e != r :: MostWindows(w, run) <= cap(e)
    ensures Deliveries(run, Only(r.data.documentId)) <= Cost(cap, r)
  {
    var f, d := After(w, run), r.data.documentId;
    SoundReachable(w, run);
    assert IsIngestRoot(Pub(Ingress, r).env);
    CoveredRunBy(w, run, f, r, cap);
    DeliveriesPaid(w, run, cap, Only(d));
    DocBudget(w, run, cap, d);
    assert DocRoot(f, d, r);
  }

  lemma CostOf(w: World, cap: Cap, r: Root, windows: nat)
    requires IsIngest(r) && cap(r) == windows
    ensures Cost(cap, r) ==
            match Route(r)
            case TaskEmbed => 5 + 25 + 125 + 625
            case TaskVision => 5 + 25 + 125 + 625 + 3125 + 15625
            case _ => 5 + 25 + windows * (125 + 625 + 3125 + 15625)
  {
    ClassifyAt(w, Src(AtRoot, r, "", 0, ""));
    ForSearchAt(w, Src(AtRoot, r, "", 0, ""));
  }
}
