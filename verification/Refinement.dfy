/** The distributed pipeline refines a sequential indexer: whatever the interleaving and the redeliveries, a quiet
    state that lost nothing holds exactly the index a plain loop over the accepted documents builds. */
module Refinement {
  import opened Wrappers
  import opened Events
  import opened Bus
  import opened Environment
  import opened VectorDB
  import opened Protocol
  import opened Provenance
  import opened Invariant
  import opened Identity
  import opened Ledger

  /** An accepted document with the blob content it refers to. */
  datatype Doc = Doc(root: Root, content: Option<string>)

  type Naming = (string, nat) -> string

  function DocTexts(w: World, d: Doc): seq<string> {
    if d.content.None? then [] else Texts(w, d.root, d.content.value)
  }

  function PieceId(r: Root, i: nat, name: Naming): string {
    match Route(r)
    case TaskEmbed => DocOf(r)
    case TaskVision => DocOf(r) + "-vision"
    case _ => name(DocOf(r), i)
  }

  function RecordFor(w: World, d: Doc, i: nat): Record
    requires i < |DocTexts(w, d)|
  {
    var text := DocTexts(w, d)[i];
    Record(DocOf(d.root), w.vectorise(text), text, d.root.data.blobURI, d.root.data.mimeType)
  }

  /** Indexing one document: embed its first n pieces in order, skipping those without a vector. */
  function IndexDoc(w: World, store: Store, d: Doc, name: Naming, n: nat): Store
    requires n <= |DocTexts(w, d)|
  {
    if n == 0 then store
    else
      var before := IndexDoc(w, store, d, name, n - 1);
      if w.vectorise(DocTexts(w, d)[n - 1]) == [] then before
      else Upserted(before, d.root.tenantId, PieceId(d.root, n - 1, name), RecordFor(w, d, n - 1))
  }

  /** The sequential indexer. */
  function IndexAll(w: World, docs: seq<Doc>, name: Naming): Store {
    if docs == [] then map[]
    else
      var d := docs[|docs| - 1];
      IndexDoc(w, IndexAll(w, docs[..|docs| - 1], name), d, name, |DocTexts(w, d)|)
  }

  /** Document d's piece i goes under (t, id). */
  ghost predicate PieceAt(w: World, d: Doc, name: Naming, i: nat, t: string, id: string) {
    && i < |DocTexts(w, d)| && w.vectorise(DocTexts(w, d)[i]) != []
    && d.root.tenantId == t && PieceId(d.root, i, name) == id
  }

  lemma {:induction false} IndexDocContents(w: World, store: Store, d: Doc, name: Naming, n: nat, t: string, id: string)
    requires n <= |DocTexts(w, d)|
    ensures var r := IndexDoc(w, store, d, name, n);
            && (Has(r, t, id) <==> Has(store, t, id) || exists i | 0 <= i < n :: PieceAt(w, d, name, i, t, id))
            && (Has(r, t, id) ==>
                  (Has(store, t, id) && r[t][id] == store[t][id])
                  || exists i | 0 <= i < n :: PieceAt(w, d, name, i, t, id) && r[t][id] == RecordFor(w, d, i))
  {
    if n > 0 {
      IndexDocContents(w, store, d, name, n - 1, t, id);
      var before := IndexDoc(w, store, d, name, n - 1);
      if w.vectorise(DocTexts(w, d)[n - 1]) != [] {
        HasUpserted(before, d.root.tenantId, PieceId(d.root, n - 1, name), RecordFor(w, d, n - 1), t, id);
      }
      assert PieceAt(w, d, name, n - 1, t, id) <==>
             w.vectorise(DocTexts(w, d)[n - 1]) != [] && t == d.root.tenantId && id == PieceId(d.root, n - 1, name);
    }
  }

  lemma {:induction false} IndexAllContents(w: World, docs: seq<Doc>, name: Naming, t: string, id: string)
    ensures var r := IndexAll(w, docs, name);
            && (forall k, i: nat | 0 <= k < |docs| && PieceAt(w, docs[k], name, i, t, id) :: Has(r, t, id))
            && (Has(r, t, id) ==>
                  exists k, i: nat | 0 <= k < |docs| ::
                    PieceAt(w, docs[k], name, i, t, id) && r[t][id] == RecordFor(w, docs[k], i))
  {
    if docs != [] {
      var n := |docs| - 1;
      var init, d := docs[..n], docs[n];
      IndexAllContents(w, init, name, t, id);
      IndexDocContents(w, IndexAll(w, init, name), d, name, |DocTexts(w, d)|, t, id);
      var r := IndexAll(w, docs, name);
      if Has(r, t, id) {
        if i :| 0 <= i < |DocTexts(w, d)| && PieceAt(w, d, name, i, t, id) && r[t][id] == RecordFor(w, d, i) {
          assert PieceAt(w, docs[n], name, i, t, id);
        } else {
          var k, i: nat :| 0 <= k < n && PieceAt(w, init[k], name, i, t, id)
                           && IndexAll(w, init, name)[t][id] == RecordFor(w, init[k], i);
          assert PieceAt(w, docs[k], name, i, t, id);
        }
      }
      forall k, i: nat | 0 <= k < |docs| && PieceAt(w, docs[k], name, i, t, id) ensures Has(r, t, id) {
        assert k < n ==> PieceAt(w, init[k], name, i, t, id);
        PieceIsIn(w, docs, name, k, i, t, id);
      }
    }
  }

  lemma PieceIsIn(w: World, docs: seq<Doc>, name: Naming, k: nat, i: nat, t: string, id: string)
    requires k < |docs| && PieceAt(w, docs[k], name, i, t, id)
    requires k < |docs| - 1 ==> Has(IndexAll(w, docs[..|docs| - 1], name), t, id)
    ensures Has(IndexAll(w, docs, name), t, id)
  {
    var d := docs[|docs| - 1];
    IndexDocContents(w, IndexAll(w, docs[..|docs| - 1], name), d, name, |DocTexts(w, d)|, t, id);
  }

  ghost predicate Populated(store: Store) {
    forall t | t in store :: store[t] != map[]
  }

  lemma UpsertedPopulated(store: Store, t: string, id: string, rec: Record)
    requires Populated(store)
    ensures Populated(Upserted(store, t, id, rec))
  {
    assert id in Slice(store, t)[id := rec];
  }

  lemma {:induction false} IndexDocPopulated(w: World, store: Store, d: Doc, name: Naming, n: nat)
    requires Populated(store) && n <= |DocTexts(w, d)|
    ensures Populated(IndexDoc(w, store, d, name, n))
  {
    if n > 0 {
      IndexDocPopulated(w, store, d, name, n - 1);
      UpsertedPopulated(IndexDoc(w, store, d, name, n - 1), d.root.tenantId, PieceId(d.root, n - 1, name),
                        RecordFor(w, d, n - 1));
    }
  }

  lemma {:induction false} IndexAllPopulated(w: World, docs: seq<Doc>, name: Naming)
    ensures Populated(IndexAll(w, docs, name))
  {
    if docs != [] {
      var n := |docs| - 1;
      IndexAllPopulated(w, docs[..n], name);
      IndexDocPopulated(w, IndexAll(w, docs[..n], name), docs[n], name, |DocTexts(w, docs[n])|);
    }
  }

  lemma {:induction false} StorePopulated(w: World, run: seq<Label>)
    requires IsRun(w, run)
    ensures Populated(After(w, run).store)
  {
    if run != [] {
      var n := |run| - 1;
      StorePopulated(w, run[..n]);
      InvReachable(w, run[..n]);
      var s := After(w, run[..n]);
      var x := StoreAfterStep(w, s, run[n]);
      UpsertedPopulated(s.store, x.root.tenantId, x.id, RecordAt(w, x));
    }
  }

  lemma SameContentsSameStore(a: Store, b: Store)
    requires Populated(a) && Populated(b)
    requires forall t, id :: Has(a, t, id) <==> Has(b, t, id)
    requires forall t, id | Has(a, t, id) :: Has(b, t, id) && a[t][id] == b[t][id]
    ensures a == b
  {
    forall t ensures t in a <==> t in b {
      if t in a {
        var id :| id in a[t];
        assert Has(a, t, id);
      }
      if t in b {
        var id :| id in b[t];
        assert Has(b, t, id);
      }
    }
    forall t | t in a ensures a[t] == b[t] {
      forall id ensures id in a[t] <==> id in b[t] {
        assert Has(a, t, id) <==> Has(b, t, id);
      }
      forall id | id in a[t] ensures a[t][id] == b[t][id] {
        assert Has(a, t, id);
      }
    }
  }

  // The losses that are recorded as empty vectors really are.

  ghost predicate EmptyFor(w: World, s: State, e: Loss, x: Src) {
    ValidSrc(w, s, x) && Target(x) == TaskEmbed && e.env == EnvOf(w, x) && w.vectorise(TextOf(w, Embedded(x))) == []
  }

  ghost predicate LossesOk(w: World, s: State) {
    forall e | e in s.hist.losses && e.EmptyVector? :: exists x :: EmptyFor(w, s, e, x)
  }

  lemma NewLoss(w: World, s: State, l: Label, e: Loss)
    requires e in Next(w, s, l).hist.losses && e !in s.hist.losses && e.EmptyVector?
    ensures l.Deliver? && !l.a.crashed && l.m.topic == TaskEmbed && e in React(w, s, l.m, l.a).losses
  {
    if l.Deliver? {
      DeliveryLosses(w, s, l.m, l.a);
      EmptyFromEmbedder(w, s, l.m, l.a, e);
    }
  }

  lemma DeliveryLosses(w: World, s: State, m: Msg, a: Answers)
    ensures Next(w, s, Deliver(m, a)).hist.losses ==
            s.hist.losses + React(w, s, m, a).losses
            + if GivenUp(m, Settled(React(w, s, m, a), a)) then {Exhausted(m.env)} else {}
  {
  }

  lemma EmptyFromEmbedder(w: World, s: State, m: Msg, a: Answers, e: Loss)
    requires e in React(w, s, m, a).losses && e.EmptyVector?
    ensures m.topic == TaskEmbed
  {
  }

  lemma LossesOkNext(w: World, s: State, l: Label)
    requires Inv(w, s) && LossesOk(w, s) && Enabled(w, s, l)
    ensures LossesOk(w, Next(w, s, l))
  {
    var s' := Next(w, s, l);
    NextGrows(w, s, l);
    forall e | e in s'.hist.losses && e.EmptyVector? ensures exists x :: EmptyFor(w, s', e, x) {
      var x: Src;
      if e in s.hist.losses {
        x :| EmptyFor(w, s, e, x);
      } else {
        NewLoss(w, s, l, e);
        x := PlaceOf(w, s, l.m);
        EmbedAt(w, s, x, l.a);
      }
      SrcKept(w, s, s', x);
      assert EmptyFor(w, s', e, x);
    }
  }

  lemma {:induction false} LossesReachable(w: World, run: seq<Label>)
    requires IsRun(w, run)
    ensures LossesOk(w, After(w, run))
  {
    if run != [] {
      var n := |run| - 1;
      LossesReachable(w, run[..n]);
      InvReachable(w, run[..n]);
      LossesOkNext(w, After(w, run[..n]), run[n]);
    }
  }

  lemma SameEnvelopeSameText(w: World, x: Src, y: Src)
    requires EnvOf(w, x) == EnvOf(w, y) && Target(x) == TaskEmbed
    ensures TextOf(w, Embedded(x)) == TextOf(w, Embedded(y))
  {
  }

  /** A piece lost to an empty vector is one the sequential indexer skips. */
  lemma EmptyPieceSkipped(w: World, s: State, r: Root, i: nat, want: Option<string>, e: Loss, y: Src)
    requires OneVersion(s, r) && LossesOk(w, s) && e in s.hist.losses && e.EmptyVector?
    requires CarriedBy(w, s, y, e.env, r, i, want) && i < |Pieces(w, s, r)|
    ensures w.vectorise(Pieces(w, s, r)[i]) == []
  {
    var x :| EmptyFor(w, s, e, x);
    SameEnvelopeSameText(w, x, y);
    if !y.stage.AtRoot? {
      SrcContent(w, s, y);
    }
  }

  // The refinement theorem.

  ghost function Accepted(w: World, s: State, stream: seq<Pub>): seq<Doc> {
    if stream == [] then []
    else
      var p := stream[|stream| - 1];
      Accepted(w, s, stream[..|stream| - 1])
      + if p.topic == Ingress && IsIngestRoot(p.env) then [Doc(p.env, Content(s, p.env))] else []
  }

  lemma {:induction false} AcceptedMembers(w: World, s: State, stream: seq<Pub>, d: Doc)
    ensures d in Accepted(w, s, stream) <==>
            Pub(Ingress, d.root) in stream && IsIngest(d.root) && d.content == Content(s, d.root)
  {
    if stream != [] {
      var n := |stream| - 1;
      AcceptedMembers(w, s, stream[..n], d);
      assert stream == stream[..n] + [stream[n]];
    }
  }

  /** The window has a vector, so it is on its way into the index. */
  predicate Vectored(w: World, n: Name) {
    w.vectorise(n.text) != []
  }

  /** The chunker named every window that has a vector once. */
  ghost predicate NamedOnce(w: World, s: State) {
    forall a, b | a in s.hist.names && b in s.hist.names && Vectored(w, a) && Vectored(w, b)
                  && a.docId == b.docId && a.index == b.index :: a == b
  }

  // Which runs those are.

  type Window = (string, nat)

  /** The windows of a document, out of those one delivery sends, that have a vector. */
  function Sent(w: World, docId: string, texts: seq<string>): seq<Window> {
    if texts == [] then []
    else
      var n := |texts| - 1;
      Sent(w, docId, texts[..n]) + if w.vectorise(texts[n]) != [] then [(docId, n)] else []
  }

  lemma {:induction false} SentMembers(w: World, docId: string, texts: seq<string>, x: Window)
    ensures x in Sent(w, docId, texts) <==> x.0 == docId && x.1 < |texts| && w.vectorise(texts[x.1]) != []
  {
    if texts != [] {
      SentMembers(w, docId, texts[..|texts| - 1], x);
    }
  }

  ghost predicate Distinct(xs: seq<Window>) {
    forall i, j | 0 <= i < j < |xs| :: xs[i] != xs[j]
  }

  lemma AppendDistinct(xs: seq<Window>, e: seq<Window>)
    requires Distinct(e)
    ensures Distinct(xs + e) <==> Distinct(xs) && forall x | x in e :: x !in xs
  {
    var all := xs + e;
    assert forall i | 0 <= i < |xs| :: all[i] == xs[i];
    assert forall j | 0 <= j < |e| :: all[|xs| + j] == e[j];
    if Distinct(all) {
      forall x | x in e ensures x !in xs {
        var j :| 0 <= j < |e| && e[j] == x;
        assert forall i | 0 <= i < |xs| :: all[i] != all[|xs| + j];
      }
    }
    if Distinct(xs) && forall x | x in e :: x !in xs {
      forall i, j | 0 <= i < j < |all| ensures all[i] != all[j] {
        assert j >= |xs| ==> all[j] == e[j - |xs|] && all[j] in e;
        assert i < |xs| ==> all[i] in xs;
        assert i >= |xs| ==> all[i] == e[i - |xs|];
      }
    }
  }

  lemma {:induction false} SentDistinct(w: World, docId: string, texts: seq<string>)
    ensures Distinct(Sent(w, docId, texts))
  {
    if texts != [] {
      var n := |texts| - 1;
      SentDistinct(w, docId, texts[..n]);
      SentMembers(w, docId, texts[..n], (docId, n));
      AppendDistinct(Sent(w, docId, texts[..n]), if w.vectorise(texts[n]) != [] then [(docId, n)] else []);
    }
  }

  ghost function SentBy(w: World, s: State, l: Label): seq<Window> {
    if l.Deliver? then Sent(w, DecodeIngest(l.m.env.data).documentId, Named(w, s, l.m, l.a)) else []
  }

  /** The windows that have a vector, one entry for every delivery in which the chunker sent them. */
  ghost function Sendings(w: World, run: seq<Label>): seq<Window> {
    if run == [] then []
    else Sendings(w, run[..|run| - 1]) + SentBy(w, After(w, run[..|run| - 1]), run[|run| - 1])
  }

  ghost predicate Names(w: World, s: State, n: Name, x: Window) {
    n in s.hist.names && Vectored(w, n) && n.docId == x.0 && n.index == x.1
  }

  ghost predicate HasName(w: World, s: State, x: Window) {
    exists n :: Names(w, s, n, x)
  }

  ghost predicate NamesNow(w: World, s: State, l: Label, n: Name) {
    && l.Deliver? && n.docId == DecodeIngest(l.m.env.data).documentId && n.index < |Named(w, s, l.m, l.a)|
    && n.id == l.a.Id(n.index) && n.text == Named(w, s, l.m, l.a)[n.index]
  }

  lemma NamesOfStep(w: World, s: State, l: Label, n: Name)
    requires Enabled(w, s, l)
    ensures n in Next(w, s, l).hist.names <==> n in s.hist.names || NamesNow(w, s, l, n)
  {
  }

  lemma NamesSent(w: World, s: State, l: Label, n: Name)
    requires NamesNow(w, s, l, n)
    ensures Vectored(w, n) <==> (n.docId, n.index) in SentBy(w, s, l)
  {
    SentMembers(w, n.docId, Named(w, s, l.m, l.a), (n.docId, n.index));
  }

  function NameSent(w: World, s: State, l: Label, x: Window): Name
    requires l.Deliver? && x.1 < |Named(w, s, l.m, l.a)|
  {
    Name(l.a.Id(x.1), x.0, x.1, Named(w, s, l.m, l.a)[x.1])
  }

  lemma SentNamed(w: World, s: State, l: Label, x: Window)
    requires Enabled(w, s, l) && x in SentBy(w, s, l)
    ensures l.Deliver? && x.1 < |Named(w, s, l.m, l.a)| && NamesNow(w, s, l, NameSent(w, s, l, x))
    ensures Names(w, Next(w, s, l), NameSent(w, s, l, x), x)
  {
    SentMembers(w, DecodeIngest(l.m.env.data).documentId, Named(w, s, l.m, l.a), x);
    NamesOfStep(w, s, l, NameSent(w, s, l, x));
  }

  lemma HasNameNext(w: World, s: State, l: Label, x: Window)
    requires Enabled(w, s, l)
    ensures HasName(w, Next(w, s, l), x) <==> HasName(w, s, x) || x in SentBy(w, s, l)
  {
    if n :| Names(w, Next(w, s, l), n, x) {
      NamesOfStep(w, s, l, n);
      if n in s.hist.names {
        assert Names(w, s, n, x);
      } else {
        NamesSent(w, s, l, n);
      }
    }
    if n :| Names(w, s, n, x) {
      NamesOfStep(w, s, l, n);
      assert Names(w, Next(w, s, l), n, x);
    }
    if x in SentBy(w, s, l) {
      SentNamed(w, s, l, x);
    }
  }

  lemma FreshName(w: World, s: State, l: Label, n: Name, was: Name)
    requires NamesOk(s) && Enabled(w, s, l) && NamesNow(w, s, l, n) && was in s.hist.names
    ensures n.id != was.id
  {
    assert FreshId(s, l.a.ids[n.index]);
  }

  lemma NamedOnceNext(w: World, s: State, l: Label)
    requires NamesOk(s) && Enabled(w, s, l)
    ensures NamedOnce(w, Next(w, s, l)) <==> NamedOnce(w, s) && forall x | x in SentBy(w, s, l) :: !HasName(w, s, x)
  {
    var s' := Next(w, s, l);
    NextGrows(w, s, l);
    if NamedOnce(w, s') {
      forall x | x in SentBy(w, s, l) ensures !HasName(w, s, x) {
        if n :| Names(w, s, n, x) {
          SentNamed(w, s, l, x);
          FreshName(w, s, l, NameSent(w, s, l, x), n);
        }
      }
    }
    if NamedOnce(w, s) && forall x | x in SentBy(w, s, l) :: !HasName(w, s, x) {
      forall a, b | a in s'.hist.names && b in s'.hist.names && Vectored(w, a) && Vectored(w, b)
                    && a.docId == b.docId && a.index == b.index
        ensures a == b
      {
        StillOnce(w, s, l, a, b);
      }
    }
  }

  lemma StillOnce(w: World, s: State, l: Label, a: Name, b: Name)
    requires Enabled(w, s, l) && NamedOnce(w, s) && forall x | x in SentBy(w, s, l) :: !HasName(w, s, x)
    requires a in Next(w, s, l).hist.names && b in Next(w, s, l).hist.names && Vectored(w, a) && Vectored(w, b)
    requires a.docId == b.docId && a.index == b.index
    ensures a == b
  {
    var x := (a.docId, a.index);
    NamesOfStep(w, s, l, a);
    NamesOfStep(w, s, l, b);
    if a in s.hist.names {
      assert Names(w, s, a, x);
    } else {
      NamesSent(w, s, l, a);
    }
    if b in s.hist.names {
      assert Names(w, s, b, x);
    } else {
      NamesSent(w, s, l, b);
    }
  }

  lemma {:induction false} NamedWhenSent(w: World, run: seq<Label>, x: Window)
    requires IsRun(w, run)
    ensures HasName(w, After(w, run), x) <==> x in Sendings(w, run)
  {
    if run != [] {
      var n := |run| - 1;
      NamedWhenSent(w, run[..n], x);
      HasNameNext(w, After(w, run[..n]), run[n], x);
    }
  }

  /** The chunker has named every window that has a vector once exactly when it sent none of them in two deliveries. */
  lemma {:induction false} NamedOnceIffSentOnce(w: World, run: seq<Label>)
    requires IsRun(w, run)
    ensures NamedOnce(w, After(w, run)) <==> Distinct(Sendings(w, run))
  {
    if run != [] {
      var n := |run| - 1;
      var s, l := After(w, run[..n]), run[n];
      NamedOnceIffSentOnce(w, run[..n]);
      UniqueReachable(w, run[..n]);
      forall x ensures HasName(w, s, x) <==> x in Sendings(w, run[..n]) { NamedWhenSent(w, run[..n], x); }
      NamedOnceStep(w, s, l, Sendings(w, run[..n]));
    }
  }

  lemma NamedOnceStep(w: World, s: State, l: Label, xs: seq<Window>)
    requires NamesOk(s) && Enabled(w, s, l) && (NamedOnce(w, s) <==> Distinct(xs))
    requires forall x :: HasName(w, s, x) <==> x in xs
    ensures NamedOnce(w, Next(w, s, l)) <==> Distinct(xs + SentBy(w, s, l))
  {
    NamedOnceNext(w, s, l);
    if l.Deliver? {
      SentDistinct(w, DecodeIngest(l.m.env.data).documentId, Named(w, s, l.m, l.a));
    }
    AppendDistinct(xs, SentBy(w, s, l));
  }

  ghost function NameFor(w: World, names: set<Name>, docId: string, i: nat): string {
    if exists n :: n in names && Vectored(w, n) && n.docId == docId && n.index == i
    then (var n :| n in names && Vectored(w, n) && n.docId == docId && n.index == i; n.id)
    else ""
  }

  ghost function NamingOf(w: World, names: set<Name>): Naming {
    (d: string, i: nat) => NameFor(w, names, d, i)
  }

  lemma NamingIsIdOk(w: World, s: State, x: Src)
    requires NamedOnce(w, s) && IdOk(w, s, x) && w.vectorise(TextOf(w, x)) != []
    ensures PieceId(x.root, x.i, NamingOf(w, s.hist.names)) == x.id
  {
    if Route(x.root) == TaskChunk {
      NameIsUsed(w, s, Name(x.id, DocOf(x.root), x.i, TextOf(w, x)));
    }
  }

  lemma NameIsUsed(w: World, s: State, n: Name)
    requires NamedOnce(w, s) && n in s.hist.names && Vectored(w, n)
    ensures NameFor(w, s.hist.names, n.docId, n.index) == n.id
  {
  }

  /** Nothing is in flight, nothing was lost except pieces the model has no vector for, and no restart wiped a
      record. */
  ghost predicate Quiet(s: State) {
    s.pending == multiset{} && s.hist.wiped == {} && forall e | e in s.hist.losses :: e.EmptyVector?
  }

  /** Every accepted document needs no blob, or its URI was given one content. */
  ghost predicate OneVersionEach(s: State) {
    forall r: Root | Pub(Ingress, r) in s.stream && IsIngest(r) :: OneVersion(s, r)
  }

  lemma StoredIsIndexed(w: World, s: State, x: Src, t: string, id: string)
    requires Sound(w, s) && OneVersionEach(s) && NamedOnce(w, s) && StoredFrom(w, s, t, id, x)
    ensures var docs := Accepted(w, s, s.stream); var name := NamingOf(w, s.hist.names);
            var d := Doc(x.root, Content(s, x.root));
            d in docs && PieceAt(w, d, name, x.i, t, id) && RecordFor(w, d, x.i) == s.store[t][id]
  {
    SrcContent(w, s, x);
    NamingIsIdOk(w, s, x);
    AcceptedMembers(w, s, s.stream, Doc(x.root, Content(s, x.root)));
  }

  /** In a quiet state, nothing of a piece that has a vector is lost or still on its way. */
  lemma NothingLost(w: World, s: State, r: Root, i: nat, want: Option<string>)
    requires OneVersion(s, r) && LossesOk(w, s) && Quiet(s)
    requires i < |Pieces(w, s, r)| && w.vectorise(Pieces(w, s, r)[i]) != []
    ensures !Lost(w, s, r, i, want) && !InFlight(w, s, r, i, want)
  {
    if Lost(w, s, r, i, want) {
      var e, y :| e in s.hist.losses && CarriedBy(w, s, y, e.env, r, i, want);
      EmptyPieceSkipped(w, s, r, i, want, e, y);
    }
  }

  /** In a quiet state a piece that is accounted for and has a vector is stored, under the ID it is wanted under. */
  lemma AccountedStored(w: World, s: State, r: Root, i: nat, want: Option<string>) returns (id: string)
    requires Accounted(w, s, r, i, want) && OneVersion(s, r) && LossesOk(w, s) && Quiet(s)
    requires IsIngest(r) && i < |Pieces(w, s, r)| && w.vectorise(Pieces(w, s, r)[i]) != []
    ensures StoredAs(w, s, r, i, id) && (want.None? || want == Some(id))
  {
    NothingLost(w, s, r, i, want);
    id :| (want.None? || want == Some(id)) && IndexedAs(w, s, r, i, id);
  }

  lemma PieceStored(w: World, s: State, r: Root, i: nat) returns (id: string)
    requires Balanced(w, s) && OneVersion(s, r) && LossesOk(w, s) && Quiet(s)
    requires Pub(Ingress, r) in s.stream && IsIngest(r) && i < |Pieces(w, s, r)|
    requires w.vectorise(Pieces(w, s, r)[i]) != []
    ensures StoredAs(w, s, r, i, id)
  {
    assert Accounted(w, s, r, i, None);
    id := AccountedStored(w, s, r, i, None);
  }

  lemma DonePiece(w: World, s: State, r: Root, i: nat, id: string)
    requires i < |Pieces(w, s, r)|
    ensures TextOf(w, DoneSrc(s, r, i, id)) == Pieces(w, s, r)[i]
  {
  }

  lemma StoredAsIndexed(w: World, s: State, d: Doc, i: nat, t: string, id: string, key: string)
    requires NamedOnce(w, s) && StoredAs(w, s, d.root, i, key) && d.content == Content(s, d.root)
    requires PieceAt(w, d, NamingOf(w, s.hist.names), i, t, id)
    ensures Has(s.store, t, id) && s.store[t][id] == RecordFor(w, d, i)
  {
    DonePiece(w, s, d.root, i, key);
    NamingIsIdOk(w, s, DoneSrc(s, d.root, i, key));
  }

  lemma IndexedIsStored(w: World, s: State, d: Doc, i: nat, t: string, id: string)
    requires Balanced(w, s) && OneVersionEach(s) && LossesOk(w, s) && NamedOnce(w, s) && Quiet(s)
    requires d in Accepted(w, s, s.stream) && PieceAt(w, d, NamingOf(w, s.hist.names), i, t, id)
    ensures Has(s.store, t, id) && s.store[t][id] == RecordFor(w, d, i)
  {
    AcceptedMembers(w, s, s.stream, d);
    var key := PieceStored(w, s, d.root, i);
    StoredAsIndexed(w, s, d, i, t, id, key);
  }

  /** After any run that ends quiet, in which no document's URI was given two contents and the chunker sent no window
      that has a vector twice, the index equals the sequential indexer's over the accepted documents, under the names
      the chunker drew. */
  lemma RefinesSequentialIndexer(w: World, run: seq<Label>)
    requires IsRun(w, run) && Quiet(After(w, run)) && OneVersionEach(After(w, run)) && Distinct(Sendings(w, run))
    ensures var s := After(w, run);
            s.store == IndexAll(w, Accepted(w, s, s.stream), NamingOf(w, s.hist.names))
  {
    var s := After(w, run);
    NamedOnceIffSentOnce(w, run);
    LedgerBalances(w, run);
    LossesReachable(w, run);
    StorePopulated(w, run);
    var docs, name := Accepted(w, s, s.stream), NamingOf(w, s.hist.names);
    var index := IndexAll(w, docs, name);
    IndexAllPopulated(w, docs, name);
    forall t, id ensures Has(s.store, t, id) <==> Has(index, t, id)
                 ensures Has(index, t, id) ==> s.store[t][id] == index[t][id]
    {
      SameAt(w, s, t, id);
    }
    SameContentsSameStore(s.store, index);
  }

  lemma SameAt(w: World, s: State, t: string, id: string)
    requires Sound(w, s) && Balanced(w, s) && OneVersionEach(s) && LossesOk(w, s) && NamedOnce(w, s) && Quiet(s)
    ensures var index := IndexAll(w, Accepted(w, s, s.stream), NamingOf(w, s.hist.names));
            && (Has(s.store, t, id) <==> Has(index, t, id))
            && (Has(index, t, id) ==> s.store[t][id] == index[t][id])
  {
    var docs, name := Accepted(w, s, s.stream), NamingOf(w, s.hist.names);
    IndexAllContents(w, docs, name, t, id);
    if Has(s.store, t, id) {
      StoredInIndex(w, s, docs, name, t, id);
    }
    if Has(IndexAll(w, docs, name), t, id) {
      var k, i: nat :| 0 <= k < |docs| && PieceAt(w, docs[k], name, i, t, id)
                       && IndexAll(w, docs, name)[t][id] == RecordFor(w, docs[k], i);
      IndexedIsStored(w, s, docs[k], i, t, id);
    }
  }

  lemma StoredInIndex(w: World, s: State, docs: seq<Doc>, name: Naming, t: string, id: string)
    requires Sound(w, s) && OneVersionEach(s) && NamedOnce(w, s) && Has(s.store, t, id)
    requires docs == Accepted(w, s, s.stream) && name == NamingOf(w, s.hist.names)
    requires forall k, i: nat | 0 <= k < |docs| && PieceAt(w, docs[k], name, i, t, id) ::
               Has(IndexAll(w, docs, name), t, id)
    ensures Has(IndexAll(w, docs, name), t, id)
  {
    var x :| StoredFrom(w, s, t, id, x);
    StoredIsIndexed(w, s, x, t, id);
    var k :| 0 <= k < |docs| && docs[k] == Doc(x.root, Content(s, x.root));
    assert PieceAt(w, docs[k], name, x.i, t, id);
  }
}
