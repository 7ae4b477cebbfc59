/** What a restart of the engine costs: its index is memory, the bus is on disk, and nothing that was acknowledged is
    ever delivered again. */
module Restarts {
  import opened Events
  import opened Bus
  import opened Environment
  import opened VectorDB
  import opened Protocol
  import opened Provenance
  import opened Invariant
  import opened Identity
  import opened Ledger
  import opened Linearizability
  import opened Termination

  /** The bus carries nothing of the document, and the index holds nothing of it. */
  ghost predicate Traceless(s: State, d: string) {
    && (forall m | m in s.pending :: !Counts(Only(d), m.env))
    && (forall t, id | Has(s.store, t, id) :: s.store[t][id].docId != d)
  }

  lemma RequestUncounted(w: World, s: State, l: Label, d: string, p: Pub)
    requires Inv(w, s) && Enabled(w, s, l) && !l.Deliver? && p in Emitted(w, s, l)
    requires d in s.hist.used && |d| == UUID_LENGTH
    ensures !Counts(Only(d), p.env)
  {
    RequestEmits(w, s, l, p);
  }

  lemma EmittedUncounted(w: World, s: State, l: Label, d: string, p: Pub)
    requires Inv(w, s) && Enabled(w, s, l) && Traceless(s, d) && d in s.hist.used && |d| == UUID_LENGTH
    requires p in Emitted(w, s, l)
    ensures !Counts(Only(d), p.env)
  {
    if l.Deliver? {
      RepliesEmitNothing(w, s, l.m, l.a);
      var x := PlaceOf(w, s, l.m);
      EmitsUncounted(w, s, Only(d), l.m, l.a, x, p);
    } else {
      RequestUncounted(w, s, l, d, p);
    }
  }

  lemma PendingOrigin(w: World, s: State, l: Label, m: Msg)
    requires Enabled(w, s, l) && m in Next(w, s, l).pending
    ensures m in s.pending || Pub(m.topic, m.env) in Emitted(w, s, l)
            || (l.Deliver? && m.env == l.m.env && l.m in s.pending)
  {
    ArrivalsMember(Emitted(w, s, l), m);
    if l.Deliver? {
      DeliveredPending(w, s, l.m, l.a);
    } else {
      PendingAfterRequest(w, s, l);
    }
  }

  lemma UpsertUncounted(w: World, s: State, x: Src, d: string, t: string, id: string, store: Store)
    requires !Counts(Only(d), EnvOf(w, x)) && x.stage.AtDone? && Has(store, t, id)
    requires forall u, k | Has(s.store, u, k) :: s.store[u][k].docId != d
    requires store == s.store || store == Upserted(s.store, x.root.tenantId, x.id, RecordAt(w, x))
    ensures store[t][id].docId != d
  {
    HasUpserted(s.store, x.root.tenantId, x.id, RecordAt(w, x), t, id);
  }

  lemma EngineUpserts(w: World, s: State, m: Msg, a: Answers, x: Src)
    requires ValidSrc(w, s, x) && m.env == EnvOf(w, x) && m.topic == TaskEngine && TopicOk(m.topic, x)
    ensures x.stage.AtDone?
    ensures var store := Next(w, s, Deliver(m, a)).store;
            store == s.store || store == Upserted(s.store, x.root.tenantId, x.id, RecordAt(w, x))
  {
    EngineStores(w, s, x);
    StoreAfterDelivery(w, s, m, a);
  }

  lemma DeliveryUncounted(w: World, s: State, m: Msg, a: Answers, d: string, t: string, id: string)
    requires Inv(w, s) && Traceless(s, d) && m in s.pending && m.topic == TaskEngine
    requires Has(Next(w, s, Deliver(m, a)).store, t, id)
    ensures Next(w, s, Deliver(m, a)).store[t][id].docId != d
  {
    var x := PlaceOf(w, s, m);
    EngineUpserts(w, s, m, a, x);
    UpsertUncounted(w, s, x, d, t, id, Next(w, s, Deliver(m, a)).store);
  }

  lemma RecordUncounted(w: World, s: State, l: Label, d: string, t: string, id: string)
    requires Inv(w, s) && Enabled(w, s, l) && Traceless(s, d) && Has(Next(w, s, l).store, t, id)
    ensures Next(w, s, l).store[t][id].docId != d
  {
    if l.Deliver? && l.m.topic == TaskEngine {
      DeliveryUncounted(w, s, l.m, l.a, d, t, id);
    } else if !WipesIndex(l) {
      StoreUntouched(w, s, l);
    }
  }

  lemma TracelessNext(w: World, s: State, l: Label, d: string)
    requires Inv(w, s) && Enabled(w, s, l) && Traceless(s, d) && d in s.hist.used && |d| == UUID_LENGTH
    ensures Traceless(Next(w, s, l), d)
  {
    forall m | m in Next(w, s, l).pending ensures !Counts(Only(d), m.env) {
      PendingOrigin(w, s, l, m);
      if Pub(m.topic, m.env) in Emitted(w, s, l) {
        EmittedUncounted(w, s, l, d, Pub(m.topic, m.env));
      }
    }
    forall t, id | Has(Next(w, s, l).store, t, id) ensures Next(w, s, l).store[t][id].docId != d {
      RecordUncounted(w, s, l, d, t, id);
    }
  }

  /** The document was announced, and nothing of it is left. */
  ghost predicate Gone(s: State, d: string) {
    Traceless(s, d) && d in s.hist.used
  }

  lemma GoneKept(w: World, d: string)
    requires |d| == UUID_LENGTH
    ensures Keeps(w, s => Gone(s, d), l => true, s => true)
  {
    forall s, l | SoundStep(w, s, l) && Gone(s, d) ensures Gone(Next(w, s, l), d) {
      TracelessNext(w, s, l, d);
      NextGrows(w, s, l);
    }
  }

  lemma GoneStays(w: World, run: seq<Label>, k: nat, n: nat, d: string)
    requires IsRun(w, run) && k <= n <= |run| && Gone(After(w, run[..k]), d) && |d| == UUID_LENGTH
    ensures Gone(After(w, run[..n]), d)
  {
    GoneKept(w, d);
    RunPrefix(w, run, n);
    Prefixes(run, k, n);
    KeptAlong(w, run[..k], run[..n], s => Gone(s, d), l => true, s => true);
  }

  /** A document of which nothing is in flight when the engine restarts is gone: no record of it is ever in the index
      again, although every delivery that indexed it was acknowledged. */
  lemma AcknowledgedIsGone(w: World, run: seq<Label>, k: nat, n: nat, r: Root, t: string, id: string)
    requires IsRun(w, run) && k < n <= |run| && WipesIndex(run[k])
    requires Pub(Ingress, r) in After(w, run[..k]).stream && IsIngest(r)
    requires forall m | m in After(w, run[..k]).pending :: !Counts(Only(r.data.documentId), m.env)
    requires Has(After(w, run[..n]).store, t, id)
    ensures After(w, run[..n]).store[t][id].docId != r.data.documentId
  {
    var d := r.data.documentId;
    RunPrefix(w, run, k);
    UniqueReachable(w, run[..k]);
    var s := After(w, run[..k]);
    assert IsIngestRoot(Pub(Ingress, r).env);
    WipedClean(w, s, run[k], d);
    RunPrefix(w, run, k + 1);
    GoneStays(w, run, k + 1, n, d);
  }

  lemma WipedClean(w: World, s: State, l: Label, d: string)
    requires WipesIndex(l) && d in s.hist.used && forall m | m in s.pending :: !Counts(Only(d), m.env)
    ensures Gone(Next(w, s, l), d)
  {
  }
}
