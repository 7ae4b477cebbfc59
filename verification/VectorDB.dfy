/** The in-memory vector index: tenant -> chunk -> record, linear scan, sort by score, truncate. */
module VectorDB {
  import opened Wrappers
  import opened Events
  import opened Cosine

  datatype Record = Record(docId: string, vector: Vector, text: string, fileURI: string, mimeType: string)

  type Store = map<string, map<string, Record>>

  datatype Hit = Hit(
    documentId: string, chunkId: string, score: real, text: string, fileURI: string, mimeType: string)

  datatype Error = EmptyTenant | EmptyVector

  function Slice(store: Store, tenant: string): map<string, Record> {
    if tenant in store then store[tenant] else map[]
  }

  predicate Has(store: Store, tenant: string, id: string) {
    tenant in store && id in store[tenant]
  }

  function Upserted(store: Store, tenant: string, id: string, rec: Record): (r: Store)
    ensures Slice(r, tenant) == Slice(store, tenant)[id := rec]
    ensures forall t | t != tenant :: Slice(r, t) == Slice(store, t)
  {
    store[tenant := Slice(store, tenant)[id := rec]]
  }

  lemma HasUpserted(store: Store, tenant: string, key: string, rec: Record, t: string, id: string)
    ensures var r := Upserted(store, tenant, key, rec);
            if t == tenant && id == key then Has(r, t, id) && r[t][id] == rec
            else (Has(r, t, id) <==> Has(store, t, id)) && (Has(store, t, id) ==> r[t][id] == store[t][id])
  {
  }

  /** The records a query can be compared with: those of its dimension. */
  function Candidates(slice: map<string, Record>, q: Vector): set<string> {
    set id | id in slice && |slice[id].vector| == |q|
  }

  function Score(sqrt: real -> real, slice: map<string, Record>, q: Vector, id: string): real
    requires id in Candidates(slice, q)
  {
    Similarity(sqrt, q, slice[id].vector)
  }

  function HitOf(sqrt: real -> real, slice: map<string, Record>, q: Vector, id: string): Hit
    requires id in Candidates(slice, q)
  {
    var r := slice[id];
    Hit(r.docId, id, Score(sqrt, slice, q, id), r.text, r.fileURI, r.mimeType)
  }

  ghost predicate AllHits(sqrt: real -> real, slice: map<string, Record>, q: Vector, hits: seq<Hit>) {
    forall h | h in hits :: h.chunkId in Candidates(slice, q) && h == HitOf(sqrt, slice, q, h.chunkId)
  }

  ghost predicate DistinctIds(hits: seq<Hit>) {
    forall i, j | 0 <= i < j < |hits| :: hits[i].chunkId != hits[j].chunkId
  }

  ghost predicate Descending(hits: seq<Hit>) {
    forall i, j | 0 <= i < j < |hits| :: hits[i].score >= hits[j].score
  }

  function Ids(hits: seq<Hit>): set<string> {
    set i | 0 <= i < |hits| :: hits[i].chunkId
  }

  function Min(a: nat, b: nat): nat {
    if a < b then a else b
  }

  /** What a search for the k best means, independently of how the map is iterated or ties are broken. */
  ghost predicate IsTopK(sqrt: real -> real, slice: map<string, Record>, q: Vector, k: nat, hits: seq<Hit>) {
    && |hits| == Min(k, |Candidates(slice, q)|)
    && AllHits(sqrt, slice, q, hits)
    && DistinctIds(hits)
    && Descending(hits)
    && forall id, i | id in Candidates(slice, q) && id !in Ids(hits) && 0 <= i < |hits| ::
         Score(sqrt, slice, q, id) <= hits[i].score
  }

  lemma {:induction false} IdsSize(hits: seq<Hit>)
    requires DistinctIds(hits)
    ensures |Ids(hits)| == |hits|
  {
    if hits != [] {
      var n := |hits| - 1;
      IdsSize(hits[..n]);
      assert Ids(hits) == Ids(hits[..n]) + {hits[n].chunkId};
      assert hits[n].chunkId !in Ids(hits[..n]);
    }
  }

  lemma SubsetSize<T>(a: set<T>, b: set<T>)
    requires a <= b
    ensures |a| <= |b|
    ensures |a| == |b| ==> a == b
  {
    assert b == a + (b - a);
  }

  /** sort.Slice by descending score: some permutation, in order; nothing is promised about ties. */
  method SortByScore(hits: seq<Hit>) returns (sorted: seq<Hit>)
    ensures Descending(sorted)
    ensures multiset(sorted) == multiset(hits)
  {
    if hits == [] {
      return [];
    }
    var rest := SortByScore(hits[1..]);
    var j := InsertionPoint(rest, hits[0]);
    InsertMultiset(rest, j, hits[0]);
    InsertDescending(rest, j, hits[0]);
    assert hits == [hits[0]] + hits[1..];
    sorted := rest[..j] + [hits[0]] + rest[j..];
  }

  method InsertionPoint(s: seq<Hit>, h: Hit) returns (j: nat)
    ensures j <= |s|
    ensures forall n | 0 <= n < j :: s[n].score >= h.score
    ensures j < |s| ==> s[j].score < h.score
  {
    j := 0;
    while j < |s| && s[j].score >= h.score
      invariant j <= |s|
      invariant forall n | 0 <= n < j :: s[n].score >= h.score
    {
      j := j + 1;
    }
  }

  lemma InsertMultiset(s: seq<Hit>, j: nat, h: Hit)
    requires j <= |s|
    ensures multiset(s[..j] + [h] + s[j..]) == multiset(s) + multiset{h}
  {
    assert s == s[..j] + s[j..];
  }

  lemma InsertDescending(s: seq<Hit>, j: nat, h: Hit)
    requires j <= |s| && Descending(s)
    requires forall n | 0 <= n < j :: s[n].score >= h.score
    requires j < |s| ==> s[j].score < h.score
    ensures Descending(s[..j] + [h] + s[j..])
  {
    var r := s[..j] + [h] + s[j..];
    forall m, n | 0 <= m < n < |r| ensures r[m].score >= r[n].score {
      assert r[n] == if n < j then s[n] else if n == j then h else s[n - 1];
      assert r[m] == if m < j then s[m] else if m == j then h else s[m - 1];
      assert m == j ==> s[j].score >= s[n - 1].score;
    }
  }

  lemma SameMembers(a: seq<Hit>, b: seq<Hit>)
    requires multiset(a) == multiset(b)
    ensures |a| == |b|
    ensures forall h :: h in a <==> h in b
    ensures Ids(a) == Ids(b)
  {
    assert |multiset(a)| == |a| && |multiset(b)| == |b|;
    assert forall h :: h in a <==> h in multiset(a);
    assert forall h :: h in b <==> h in multiset(b);
    forall id | id in Ids(a) ensures id in Ids(b) {
      var i :| 0 <= i < |a| && a[i].chunkId == id;
      assert a[i] in b;
    }
    forall id | id in Ids(b) ensures id in Ids(a) {
      var i :| 0 <= i < |b| && b[i].chunkId == id;
      assert b[i] in a;
    }
  }

  lemma {:induction false} DistinctIfAsManyIds(hits: seq<Hit>)
    requires |Ids(hits)| == |hits|
    ensures DistinctIds(hits)
  {
    if hits != [] {
      var n := |hits| - 1;
      var init := hits[..n];
      assert Ids(hits) == Ids(init) + {hits[n].chunkId};
      IdsAtMost(init);
      DistinctIfAsManyIds(init);
      assert hits[n].chunkId !in Ids(init);
    }
  }

  lemma {:induction false} IdsAtMost(hits: seq<Hit>)
    ensures |Ids(hits)| <= |hits|
  {
    if hits != [] {
      var n := |hits| - 1;
      IdsAtMost(hits[..n]);
      assert Ids(hits) == Ids(hits[..n]) + {hits[n].chunkId};
    }
  }

  /** Scanning everything, sorting and truncating gives the k best. */
  lemma SortedPrefixIsTopK(sqrt: real -> real, slice: map<string, Record>, q: Vector, k: nat,
                           all: seq<Hit>, sorted: seq<Hit>)
    requires AllHits(sqrt, slice, q, all) && DistinctIds(all) && Ids(all) == Candidates(slice, q)
    requires multiset(sorted) == multiset(all) && Descending(sorted)
    ensures IsTopK(sqrt, slice, q, k, if |sorted| > k then sorted[..k] else sorted)
  {
    SameMembers(sorted, all);
    IdsSize(all);
    DistinctIfAsManyIds(sorted);
    PrefixIsTopK(sqrt, slice, q, sorted, if |sorted| > k then k else |sorted|);
    assert sorted[..|sorted|] == sorted;
  }

  lemma PrefixIsTopK(sqrt: real -> real, slice: map<string, Record>, q: Vector, sorted: seq<Hit>, n: nat)
    requires AllHits(sqrt, slice, q, sorted) && DistinctIds(sorted) && Ids(sorted) == Candidates(slice, q)
    requires Descending(sorted) && n <= |sorted|
    ensures IsTopK(sqrt, slice, q, n, sorted[..n])
  {
    var hits := sorted[..n];
    IdsSize(sorted);
    PrefixHits(sqrt, slice, q, sorted, n);
    forall id, i | id in Candidates(slice, q) && id !in Ids(hits) && 0 <= i < n
      ensures Score(sqrt, slice, q, id) <= hits[i].score
    {
      var j :| 0 <= j < |sorted| && sorted[j].chunkId == id;
      assert sorted[j] in sorted;
    }
  }

  lemma PrefixHits(sqrt: real -> real, slice: map<string, Record>, q: Vector, sorted: seq<Hit>, n: nat)
    requires AllHits(sqrt, slice, q, sorted) && DistinctIds(sorted) && Descending(sorted) && n <= |sorted|
    ensures var hits := sorted[..n];
            && AllHits(sqrt, slice, q, hits) && DistinctIds(hits) && Descending(hits)
            && forall i | 0 <= i < n :: hits[i] == sorted[i] && sorted[i].chunkId in Ids(hits)
  {
    var hits := sorted[..n];
    assert forall i | 0 <= i < n :: hits[i].chunkId in Ids(hits);
  }

  lemma OneMoreHit(sqrt: real -> real, slice: map<string, Record>, q: Vector, hits: seq<Hit>, h: Hit)
    requires AllHits(sqrt, slice, q, hits) && DistinctIds(hits)
    requires h.chunkId in Candidates(slice, q) && h == HitOf(sqrt, slice, q, h.chunkId) && h.chunkId !in Ids(hits)
    ensures AllHits(sqrt, slice, q, hits + [h]) && DistinctIds(hits + [h])
    ensures Ids(hits + [h]) == Ids(hits) + {h.chunkId}
  {
    var r := hits + [h];
    assert forall i | 0 <= i < |hits| :: r[i] == hits[i] && hits[i].chunkId in Ids(hits);
    assert r[|hits|] == h;
    forall id | id in Ids(hits) + {h.chunkId} ensures id in Ids(r) {
      if id in Ids(hits) {
        var i :| 0 <= i < |hits| && hits[i].chunkId == id;
        assert r[i].chunkId == id;
      }
    }
  }

  class MemoryVectorDB {
    var store: Store
    const sqrt: real -> real

    constructor (sqrt: real -> real)
      ensures store == map[] && this.sqrt == sqrt
    {
      store := map[];
      this.sqrt := sqrt;
    }

    /** Saves one record; refuses an empty tenant or an empty vector and then changes nothing. */
    method Upsert(tenant: string, docId: string, chunkId: string, vector: Vector, text: string, fileURI: string,
                  mimeType: string)
      returns (err: Option<Error>)
      modifies this`store
      ensures err == if tenant == "" then Some(EmptyTenant) else if vector == [] then Some(EmptyVector) else None
      ensures err.Some? ==> store == old(store)
      ensures err.None? ==>
                store == Upserted(old(store), tenant, chunkId, Record(docId, vector, text, fileURI, mimeType))
    {
      if tenant == "" {
        return Some(EmptyTenant);
      }
      if |vector| == 0 {
        return Some(EmptyVector);
      }
      if tenant !in store {
        store := store[tenant := map[]];
      }
      store := store[tenant := store[tenant][chunkId := Record(docId, vector, text, fileURI, mimeType)]];
      return None;
    }

    /** Linear search over one tenant's records, whatever order the map is iterated in. */
    method Search(tenant: string, q: Vector, topK: int) returns (err: Option<Error>, hits: seq<Hit>)
      requires 0 <= topK && IsSqrt(sqrt)
      ensures err == if tenant == "" then Some(EmptyTenant) else if q == [] then Some(EmptyVector) else None
      ensures err.Some? ==> hits == []
      ensures err.None? ==> IsTopK(sqrt, Slice(store, tenant), q, topK, hits)
    {
      if tenant == "" {
        return Some(EmptyTenant), [];
      }
      if |q| == 0 {
        return Some(EmptyVector), [];
      }
      if tenant !in store || |store[tenant]| == 0 {
        assert Candidates(Slice(store, tenant), q) == {};
        return None, [];
      }
      var chunks := store[tenant];
      var results: seq<Hit> := [];
      var left := chunks.Keys;
      while left != {}
        invariant left <= chunks.Keys
        invariant AllHits(sqrt, chunks, q, results) && DistinctIds(results)
        invariant Ids(results) == Candidates(chunks, q) - left
        decreases left
      {
        var id :| id in left;
        left := left - {id};
        if |chunks[id].vector| == |q| {
          var score := CosineSimilarity(sqrt, q, chunks[id].vector);
          var hit := Hit(chunks[id].docId, id, score, chunks[id].text, chunks[id].fileURI, chunks[id].mimeType);
          OneMoreHit(sqrt, chunks, q, results, hit);
          results := results + [hit];
        }
      }
      var sorted := SortByScore(results);
      SortedPrefixIsTopK(sqrt, chunks, q, topK, results, sorted);
      if |sorted| > topK {
        sorted := sorted[..topK];
      }
      return None, sorted;
    }
  }

  /** Two correct answers may order ties differently, but they carry the same scores. */
  lemma TopKScoresUnique(sqrt: real -> real, slice: map<string, Record>, q: Vector, k: nat, a: seq<Hit>, b: seq<Hit>)
    requires IsTopK(sqrt, slice, q, k, a) && IsTopK(sqrt, slice, q, k, b)
    ensures |a| == |b| && forall i | 0 <= i < |a| :: a[i].score == b[i].score
  {
    forall i | 0 <= i < |a| ensures a[i].score == b[i].score {
      ScoreAtMost(sqrt, slice, q, k, a, b, i);
      ScoreAtMost(sqrt, slice, q, k, b, a, i);
    }
  }

  /** Pigeonhole: were a[i] to score above b[i], the i + 1 best of a would all sit among the first i of b. */
  lemma ScoreAtMost(sqrt: real -> real, slice: map<string, Record>, q: Vector, k: nat, a: seq<Hit>, b: seq<Hit>,
                    i: nat)
    requires IsTopK(sqrt, slice, q, k, a) && IsTopK(sqrt, slice, q, k, b) && i < |a|
    ensures a[i].score <= b[i].score
  {
    if a[i].score > b[i].score {
      BetterOnesCommon(sqrt, slice, q, k, a, b, i);
      IdsSize(a[..i + 1]);
      IdsSize(b[..i]);
      SubsetSize(Ids(a[..i + 1]), Ids(b[..i]));
    }
  }

  lemma BetterOnesCommon(sqrt: real -> real, slice: map<string, Record>, q: Vector, k: nat, a: seq<Hit>, b: seq<Hit>,
                         i: nat)
    requires IsTopK(sqrt, slice, q, k, a) && IsTopK(sqrt, slice, q, k, b)
    requires i < |a| && a[i].score > b[i].score
    ensures Ids(a[..i + 1]) <= Ids(b[..i])
  {
    forall id | id in Ids(a[..i + 1]) ensures id in Ids(b[..i]) {
      var m :| 0 <= m < i + 1 && a[..i + 1][m].chunkId == id;
      assert a[..i + 1][m] == a[m] && a[m] in a;
      BetterOneCommon(sqrt, slice, q, k, b, i, id);
    }
  }

  lemma BetterOneCommon(sqrt: real -> real, slice: map<string, Record>, q: Vector, k: nat, b: seq<Hit>, i: nat,
                        id: string)
    requires IsTopK(sqrt, slice, q, k, b) && i < |b| && id in Candidates(slice, q)
    requires Score(sqrt, slice, q, id) > b[i].score
    ensures id in Ids(b[..i])
  {
    assert id in Ids(b);
    var n :| 0 <= n < |b| && b[n].chunkId == id;
    assert b[n] in b;
    assert b[..i][n] == b[n];
  }

  /** A candidate's score bounds the best answer from below. */
  lemma BestAtLeast(sqrt: real -> real, slice: map<string, Record>, q: Vector, k: nat, hits: seq<Hit>, id: string)
    requires IsTopK(sqrt, slice, q, k, hits) && 1 <= k && id in Candidates(slice, q)
    ensures hits != [] && Score(sqrt, slice, q, id) <= hits[0].score
  {
    assert |Candidates(slice, q)| != 0;
    if id in Ids(hits) {
      var i :| 0 <= i < |hits| && hits[i].chunkId == id;
      assert hits[i] in hits;
    }
  }

  /** If a record holds the query itself, the best answer scores exactly 1. */
  lemma StoredQueryScoresOne(sqrt: real -> real, slice: map<string, Record>, q: Vector, k: nat, hits: seq<Hit>,
                             id: string)
    requires IsSqrt(sqrt) && IsTopK(sqrt, slice, q, k, hits) && 1 <= k
    requires id in slice && slice[id].vector == q && Norm2(q) != 0.0
    ensures hits != [] && hits[0].score == 1.0
  {
    BestAtLeast(sqrt, slice, q, k, hits, id);
    SelfSimilarity(sqrt, q);
    assert hits[0] in hits;
    SimilarityBounded(sqrt, q, slice[hits[0].chunkId].vector);
  }

  /** After an upsert of a non-zero vector, every search for that vector answers with top score 1. */
  lemma UpsertThenSearch(sqrt: real -> real, store: Store, tenant: string, id: string, rec: Record, k: nat,
                         hits: seq<Hit>)
    requires IsSqrt(sqrt) && 1 <= k && Norm2(rec.vector) != 0.0
    requires IsTopK(sqrt, Slice(Upserted(store, tenant, id, rec), tenant), rec.vector, k, hits)
    ensures hits != [] && hits[0].score == 1.0
  {
    StoredQueryScoresOne(sqrt, Slice(Upserted(store, tenant, id, rec), tenant), rec.vector, k, hits, id);
  }

  /** The records the query has no negative dot product with. */
  function Agreeing(slice: map<string, Record>, q: Vector): (ids: set<string>)
    ensures ids <= Candidates(slice, q)
  {
    set id | id in Candidates(slice, q) && 0.0 <= Dot(q, slice[id].vector)
  }

  lemma AgreeingScores(sqrt: real -> real, slice: map<string, Record>, q: Vector, id: string)
    requires IsSqrt(sqrt) && id in Candidates(slice, q)
    ensures 0.0 <= Score(sqrt, slice, q, id) <==> id in Agreeing(slice, q)
    ensures Score(sqrt, slice, q, id) <= 1.0
  {
    SimilarityBounded(sqrt, q, slice[id].vector);
    ScoreNonNegativeIff(sqrt, q, slice[id].vector);
  }

  lemma HitAgrees(sqrt: real -> real, slice: map<string, Record>, q: Vector, k: nat, hits: seq<Hit>, h: Hit)
    requires IsSqrt(sqrt) && IsTopK(sqrt, slice, q, k, hits) && h in hits
    ensures 0.0 <= h.score <= 1.0 <==> h.chunkId in Agreeing(slice, q)
    ensures h.chunkId in Ids(hits)
  {
    AgreeingScores(sqrt, slice, q, h.chunkId);
  }

  /** A negative score is returned only when everything that agrees with the query is. */
  lemma AgreeingReturned(sqrt: real -> real, slice: map<string, Record>, q: Vector, k: nat, hits: seq<Hit>, h: Hit)
    requires IsSqrt(sqrt) && IsTopK(sqrt, slice, q, k, hits) && h in hits && h.score < 0.0
    ensures Agreeing(slice, q) <= Ids(hits) - {h.chunkId}
  {
    var i :| 0 <= i < |hits| && hits[i] == h;
    forall id | id in Agreeing(slice, q) ensures id in Ids(hits) && id != h.chunkId {
      AgreeingScores(sqrt, slice, q, id);
      HitAgrees(sqrt, slice, q, k, hits, h);
    }
  }

  /** All scores of an answer are in [0, 1] exactly when the slice has enough records the query has no negative dot
      product with: as many as the answer is long. */
  lemma ScoresInUnitIff(sqrt: real -> real, slice: map<string, Record>, q: Vector, k: nat, hits: seq<Hit>)
    requires IsSqrt(sqrt) && IsTopK(sqrt, slice, q, k, hits)
    ensures (forall h | h in hits :: 0.0 <= h.score <= 1.0) <==>
            Min(k, |Candidates(slice, q)|) <= |Agreeing(slice, q)|
  {
    IdsSize(hits);
    if h :| h in hits && !(0.0 <= h.score <= 1.0) {
      AgreeingScores(sqrt, slice, q, h.chunkId);
      AgreeingReturned(sqrt, slice, q, k, hits, h);
      HitAgrees(sqrt, slice, q, k, hits, h);
      SubsetSize(Agreeing(slice, q), Ids(hits) - {h.chunkId});
    } else {
      forall i | 0 <= i < |hits| ensures hits[i].chunkId in Agreeing(slice, q) {
        HitAgrees(sqrt, slice, q, k, hits, hits[i]);
      }
      SubsetSize(Ids(hits), Agreeing(slice, q));
    }
  }

  /** Ranking does not depend on the length of the query vector. */
  lemma RankingScaleInvariant(sqrt: real -> real, slice: map<string, Record>, q: Vector, c: real, k: nat,
                              hits: seq<Hit>)
    requires IsSqrt(sqrt) && 0.0 < c
    ensures IsTopK(sqrt, slice, Scale(c, q), k, hits) <==> IsTopK(sqrt, slice, q, k, hits)
  {
    assert Candidates(slice, Scale(c, q)) == Candidates(slice, q);
    forall id | id in Candidates(slice, q)
      ensures HitOf(sqrt, slice, Scale(c, q), id) == HitOf(sqrt, slice, q, id)
    {
      SimilarityScaled(sqrt, c, q, slice[id].vector);
    }
  }

  /** Record `id` has the query's dimension, and none of the hits up to the i-th is it. */
  ghost predicate NotAhead(slice: map<string, Record>, q: Vector, hits: seq<Hit>, i: nat, id: string) {
    && i < |hits| && id in slice && |slice[id].vector| == |q| && forall j | 0 <= j <= i :: hits[j].chunkId != id
  }

  lemma BehindScoresLess(sqrt: real -> real, slice: map<string, Record>, q: Vector, k: nat, hits: seq<Hit>, i: nat,
                         id: string)
    requires IsTopK(sqrt, slice, q, k, hits) && NotAhead(slice, q, hits, i, id)
    ensures hits[i].chunkId in slice && |slice[hits[i].chunkId].vector| == |q|
    ensures Similarity(sqrt, q, slice[id].vector) <= Similarity(sqrt, q, slice[hits[i].chunkId].vector)
  {
    assert hits[i] in hits;
    assert id in Candidates(slice, q);
    if id in Ids(hits) {
      var j :| 0 <= j < |hits| && hits[j].chunkId == id;
      assert hits[j] in hits && i < j;
    }
  }

  /** The ranking law. A record ranked behind another, or left out, is at no smaller angle to the query; and if their
      norms are equal, it has no larger dot product with it. */
  lemma RankedByAngle(sqrt: real -> real, slice: map<string, Record>, q: Vector, k: nat, hits: seq<Hit>, i: nat,
                      id: string)
    requires IsSqrt(sqrt) && IsTopK(sqrt, slice, q, k, hits) && NotAhead(slice, q, hits, i, id)
    ensures hits[i].chunkId in slice && NoCloser(sqrt, q, slice[id].vector, slice[hits[i].chunkId].vector)
  {
    BehindScoresLess(sqrt, slice, q, k, hits, i, id);
    ScoresNoHigher(sqrt, q, slice[id].vector, slice[hits[i].chunkId].vector);
  }
}
