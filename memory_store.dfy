/** The in-memory vector store the application wires in
    (src/vector_store/chroma_store.py): two parallel lists, the documents and
    their embeddings, replaced or extended in place; a brute-force cosine
    search with top-k selection; and the retriever wrapper the QA chain
    uses. */
module MemoryStore {
  import opened Wrappers
  import opened Strings
  import opened Documents

  function Dot(a: Vector, b: Vector): real
    requires |a| == |b|
  {
    if |a| == 0 then 0.0 else a[0] * b[0] + Dot(a[1..], b[1..])
  }

  /** The squared Euclidean norm; zero exactly when the norm is zero. */
  function NormSq(a: Vector): real
  {
    Dot(a, a)
  }

  /** Real multiplication behind a function symbol, so that products of
      products stay terms the solver can divide by. */
  function Times(x: real, y: real): real
  {
    x * y
  }

  function SignedSquare(x: real): real
  {
    if x < 0.0 then -Times(x, x) else Times(x, x)
  }

  /** `_cosine_similarity(vec1, vec2)`, as the ordering it induces. numpy's
      `dot` raises `ValueError` on vectors of different lengths; a zero-norm vector gives
      0. Otherwise the model computes `sign(c) * c * c` for the cosine `c`
      as `sign(a.b) * (a.b)^2 / (|a|^2 * |b|^2)`, which needs no square root
      and orders any two pairs of vectors exactly as the cosine does
      (`ScoreIsSignedSquareOfCosine` and `CosineOrder` below). */
  function CosineSimilarity(a: Vector, b: Vector): Result<real, Error>
  {
    if |a| != |b| then Err(ValueError(ShapesNotAligned))
    else if NormSq(a) == 0.0 || NormSq(b) == 0.0 then Ok(0.0)
    else
      NormSqIsNonNegative(a);
      NormSqIsNonNegative(b);
      PositiveTimes(NormSq(a), NormSq(b));
      Ok(SignedSquare(Dot(a, b)) / Times(NormSq(a), NormSq(b)))
  }

  lemma {:induction false} NormSqIsNonNegative(a: Vector)
    ensures NormSq(a) >= 0.0
  {
    if |a| > 0 {
      NormSqIsNonNegative(a[1..]);
    }
  }

  lemma {:induction false} PositiveTimes(x: real, y: real)
    requires x > 0.0 && y > 0.0
    ensures Times(x, y) > 0.0
  {
  }

  /** The zero-norm guard: a zero vector on either side scores 0. */
  lemma {:induction false} ZeroNormScoresZero(a: Vector, b: Vector)
    requires |a| == |b|
    requires NormSq(a) == 0.0 || NormSq(b) == 0.0
    ensures CosineSimilarity(a, b) == Ok(0.0)
  {
  }

  /** Given the two norms (`na * na == |a|^2`, `nb * nb == |b|^2`), the
      score is the signed square of the cosine `a.b / (na * nb)`. */
  lemma {:induction false} ScoreIsSignedSquareOfCosine(a: Vector, b: Vector, na: real, nb: real)
    requires |a| == |b|
    requires na > 0.0 && nb > 0.0 && Times(na, na) == NormSq(a) && Times(nb, nb) == NormSq(b)
    ensures Times(na, nb) > 0.0
    ensures CosineSimilarity(a, b) == Ok(SignedSquare(Dot(a, b) / Times(na, nb)))
  {
    PositiveTimes(na, na);
    PositiveTimes(nb, nb);
    PositiveTimes(na, nb);
    Regroup(na, nb);
    SignedSquareOfQuotient(Dot(a, b), Times(na, nb));
  }

  lemma {:induction false} SignedSquareOfQuotient(d: real, p: real)
    requires p > 0.0
    ensures Times(p, p) > 0.0 && SignedSquare(d / p) == SignedSquare(d) / Times(p, p)
  {
    QuotientTimes(d, p);
    SquareOfQuotient(d / p, d, p);
    assert d / p < 0.0 <==> d < 0.0;
    NegatedQuotient(Times(d, d), Times(p, p));
  }

  lemma {:induction false} SquareOfQuotient(c: real, d: real, p: real)
    requires p > 0.0 && Times(c, p) == d
    ensures Times(p, p) > 0.0 && Times(c, c) == Times(d, d) / Times(p, p)
  {
    PositiveTimes(p, p);
    Regroup(c, p);
    DivOfProduct(Times(c, c), Times(d, d), Times(p, p));
  }

  lemma {:induction false} Regroup(x: real, y: real)
    ensures Times(Times(x, y), Times(x, y)) == Times(Times(x, x), Times(y, y))
  {
  }

  lemma {:induction false} QuotientTimes(d: real, p: real)
    requires p != 0.0
    ensures Times(d / p, p) == d
  {
  }

  lemma {:induction false} NegatedQuotient(x: real, z: real)
    requires z != 0.0
    ensures (-x) / z == -(x / z)
  {
  }

  lemma {:induction false} DivOfProduct(x: real, y: real, z: real)
    requires z != 0.0 && x * z == y
    ensures x == y / z
  {
  }

  lemma {:induction false} DivSelf(y: real)
    requires y != 0.0
    ensures y / y == 1.0
  {
  }

  lemma {:induction false} SquareIsStrictlyIncreasing(x: real, y: real)
    requires 0.0 <= x < y
    ensures x * x < y * y
  {
    var b := x * y;
    assert x * (y - x) >= 0.0;
    assert x * (y - x) == b - x * x;
    assert y * (y - x) > 0.0;
    assert y * (y - x) == y * y - y * x;
    assert y * x == b;
  }

  /** The signed square is strictly increasing, so ranking by the score is
      ranking by the cosine, ties included. */
  lemma {:induction false} CosineOrder(x: real, y: real)
    ensures x < y <==> SignedSquare(x) < SignedSquare(y)
    ensures x == y <==> SignedSquare(x) == SignedSquare(y)
  {
    if x != y {
      var lo, hi := if x < y then x else y, if x < y then y else x;
      if 0.0 <= lo {
        SquareIsStrictlyIncreasing(lo, hi);
      } else if hi <= 0.0 {
        SquareIsStrictlyIncreasing(-hi, -lo);
        assert (-hi) * (-hi) == hi * hi && (-lo) * (-lo) == lo * lo;
      } else {
        SquareIsStrictlyIncreasing(0.0, -lo);
        assert (-lo) * (-lo) == lo * lo;
        SquareIsStrictlyIncreasing(0.0, hi);
      }
      assert SignedSquare(lo) < SignedSquare(hi);
    }
  }

  /** A non-zero vector is as similar to itself as a vector can be: its
      cosine with itself is 1. */
  lemma {:induction false} SelfSimilarityIsOne(v: Vector)
    requires NormSq(v) != 0.0
    ensures CosineSimilarity(v, v) == Ok(1.0)
  {
    NormSqIsNonNegative(v);
    PositiveTimes(NormSq(v), NormSq(v));
    DivSelf(Times(NormSq(v), NormSq(v)));
  }

  /** The similarities `similarity_search` computes: one per stored
      embedding, in storage order; a stored embedding whose length differs
      from the query's makes numpy raise `ValueError`. */
  function Scores(q: Vector, embs: seq<Vector>): (r: Result<seq<real>, Error>)
    ensures r.Ok? ==> |r.value| == |embs|
  {
    if exists i :: 0 <= i < |embs| && |embs[i]| != |q| then Err(ValueError(ShapesNotAligned))
    else Ok(seq(|embs|, i requires 0 <= i < |embs| => CosineSimilarity(q, embs[i]).value))
  }

  /** How many indices `np.argsort(s)[-k:]` keeps for `n` scores: Python's
      `[-k:]` keeps the last `min(k, n)` for positive `k`, everything for
      `k == 0`, and drops the first `-k` for negative `k`. */
  function TakeCount(k: int, n: nat): (m: nat)
    ensures m <= n
    ensures k >= 1 ==> m == Min(k, n)
    ensures k == 0 ==> m == n
  {
    if k > 0 then Min(k, n) else Max(n + k, 0)
  }

  /** `top` lists `m` distinct positions of `scores`, best first, and no
      position left out scores higher than one taken. This is what
      `np.argsort(s)[-m:][::-1]` returns, up to the order among equal
      scores, which numpy does not fix. */
  ghost predicate IsTopK(scores: seq<real>, top: seq<nat>, m: nat)
  {
    && |top| == m
    && (forall i :: 0 <= i < |top| ==> top[i] < |scores|)
    && (forall i, j :: 0 <= i < j < |top| ==> top[i] != top[j])
    && (forall i, j :: 0 <= i < j < |top| ==> scores[top[i]] >= scores[top[j]])
    && (forall i, o :: 0 <= i < |top| && 0 <= o < |scores| && o !in top ==> scores[top[i]] >= scores[o])
  }

  /** `top` and `rest` split the positions `0 .. n-1` between them, each
      without repeats. */
  ghost predicate Split(n: nat, top: seq<nat>, rest: seq<nat>)
  {
    && |top| + |rest| == n
    && (forall i :: 0 <= i < |top| ==> top[i] < n)
    && (forall i :: 0 <= i < |rest| ==> rest[i] < n)
    && (forall i, j :: 0 <= i < j < |top| ==> top[i] != top[j])
    && (forall i, j :: 0 <= i < j < |rest| ==> rest[i] != rest[j])
    && (forall o :: 0 <= o < n ==> (o in top <==> o !in rest))
  }

  /** `top` is best first, and nothing in `rest` beats anything in `top`. */
  ghost predicate Ranked(scores: seq<real>, top: seq<nat>, rest: seq<nat>)
    requires forall i :: 0 <= i < |top| ==> top[i] < |scores|
    requires forall i :: 0 <= i < |rest| ==> rest[i] < |scores|
  {
    && (forall i, j :: 0 <= i < j < |top| ==> scores[top[i]] >= scores[top[j]])
    && (forall i, j :: 0 <= i < |top| && 0 <= j < |rest| ==> scores[top[i]] >= scores[rest[j]])
  }

  /** Moving the position at `rest[p]` to the end of `top` keeps the split. */
  lemma {:induction false} MoveKeepsSplit(n: nat, top: seq<nat>, rest: seq<nat>, p: nat)
    requires Split(n, top, rest) && p < |rest|
    ensures Split(n, top + [rest[p]], rest[..p] + rest[p + 1..])
  {
    var best, rest' := rest[p], rest[..p] + rest[p + 1..];
    assert best in rest && best !in top;
    assert forall o :: o in rest' <==> o in rest && o != best;
  }

  /** Moving a best-scoring position of `rest` to the end of `top` keeps
      the ranking. */
  lemma {:induction false} MoveKeepsRanking(scores: seq<real>, top: seq<nat>, rest: seq<nat>, p: nat)
    requires Split(|scores|, top, rest) && Ranked(scores, top, rest) && p < |rest|
    requires forall q :: 0 <= q < |rest| ==> scores[rest[p]] >= scores[rest[q]]
    ensures Split(|scores|, top + [rest[p]], rest[..p] + rest[p + 1..])
    ensures Ranked(scores, top + [rest[p]], rest[..p] + rest[p + 1..])
  {
    MoveKeepsSplit(|scores|, top, rest, p);
    var rest' := rest[..p] + rest[p + 1..];
    assert forall j :: 0 <= j < |rest'| ==> rest'[j] in rest;
  }

  /** The `m` best positions of `scores`, best first: repeatedly take the
      highest-scoring position not yet taken. */
  method SelectTop(scores: seq<real>, m: nat) returns (top: seq<nat>)
    requires m <= |scores|
    ensures IsTopK(scores, top, m)
  {
    var n := |scores|;
    top := [];
    var rest: seq<nat> := seq(n, i requires 0 <= i < n => i);
    forall o | 0 <= o < n
      ensures o in rest
    {
      assert rest[o] == o;
    }
    while |top| < m
      invariant |top| <= m
      invariant Split(n, top, rest) && Ranked(scores, top, rest)
    {
      var p := BestPosition(scores, rest);
      MoveKeepsRanking(scores, top, rest, p);
      top, rest := top + [rest[p]], rest[..p] + rest[p + 1..];
    }
  }

  /** Where in `rest` the highest score sits (the first such place). */
  method BestPosition(scores: seq<real>, rest: seq<nat>) returns (p: nat)
    requires 0 < |rest|
    requires forall i :: 0 <= i < |rest| ==> rest[i] < |scores|
    ensures p < |rest|
    ensures forall q :: 0 <= q < |rest| ==> scores[rest[p]] >= scores[rest[q]]
  {
    p := 0;
    var j := 1;
    while j < |rest|
      invariant 0 <= p < j <= |rest|
      invariant forall q :: 0 <= q < j ==> scores[rest[p]] >= scores[rest[q]]
    {
      if scores[rest[j]] > scores[rest[p]] {
        p := j;
      }
      j := j + 1;
    }
  }

  /** `[documents[i] for i in top]`, which raises IndexError at the first
      position past the end of `documents`. */
  function Pick(documents: seq<Document>, top: seq<nat>): Result<seq<Document>, Error>
  {
    if forall i :: 0 <= i < |top| ==> top[i] < |documents|
    then Ok(seq(|top|, i requires 0 <= i < |top| => documents[top[i]]))
    else Err(IndexOutOfRange)
  }

  /** `search_kwargs.get("k", 3)`, with `{"k": 3}` when no keyword
      arguments are given. */
  function RetrieverK(searchKwargs: Option<map<string, int>>): int
  {
    match searchKwargs
    case None => 3
    case Some(kw) => if "k" in kw then kw["k"] else 3
  }

  /** `ChromaVectorStore` (in-memory): `documents[i]` is stored with
      embedding `document_embeddings[i]`. */
  class InMemoryStore {
    const embeddings: Embedder
    const collectionName: string
    var documents: seq<Document>
    var documentEmbeddings: seq<Vector>

    /** The two lists line up. Every call keeps this except a
        `create_vectorstore` whose embedding call fails. */
    ghost predicate Aligned()
      reads this
    {
      |documents| == |documentEmbeddings|
    }

    constructor (embeddings: Embedder, collectionName: string)
      ensures this.embeddings == embeddings && this.collectionName == collectionName
      ensures documents == [] && documentEmbeddings == []
      ensures Aligned()
    {
      this.embeddings := embeddings;
      this.collectionName := collectionName;
      documents := [];
      documentEmbeddings := [];
    }

    /** `create_vectorstore(documents)`: replace the documents, then embed
        them. The documents are assigned before the embedding call, so when
        that call raises the store keeps the new documents beside the old
        embeddings. */
    method CreateVectorstore(docs: seq<Document>) returns (r: Result<(), Error>)
      modifies this
      ensures documents == docs
      ensures embeddings.EmbedDocuments(Texts(docs)).None? ==>
        r == Err(EmbeddingFailed) && documentEmbeddings == old(documentEmbeddings)
      ensures embeddings.EmbedDocuments(Texts(docs)).Some? ==>
        r == Ok(()) && documentEmbeddings == embeddings.EmbedDocuments(Texts(docs)).value
      ensures r.Ok? ==> Aligned()
    {
      documents := docs;
      var texts := Texts(docs);
      var embedded := embeddings.EmbedDocuments(texts);
      assert embedded.Some? ==> |embedded.value| == |texts| == |docs|;
      if embedded.None? {
        return Err(EmbeddingFailed);
      }
      documentEmbeddings := embedded.value;
      r := Ok(());
    }

    /** `add_documents(documents)`: on an empty store, exactly
        `create_vectorstore`; otherwise embed first and then extend both
        lists, so a failed embedding call changes nothing. */
    method AddDocuments(docs: seq<Document>) returns (r: Result<(), Error>)
      modifies this
      ensures old(documents) == [] ==> documents == docs
      ensures old(documents) == [] && embeddings.EmbedDocuments(Texts(docs)).None? ==>
        r == Err(EmbeddingFailed) && documentEmbeddings == old(documentEmbeddings)
      ensures old(documents) == [] && embeddings.EmbedDocuments(Texts(docs)).Some? ==>
        r == Ok(()) && documentEmbeddings == embeddings.EmbedDocuments(Texts(docs)).value
      ensures old(documents) != [] && embeddings.EmbedDocuments(Texts(docs)).None? ==>
        r == Err(EmbeddingFailed) && documents == old(documents) && documentEmbeddings == old(documentEmbeddings)
      ensures old(documents) != [] && embeddings.EmbedDocuments(Texts(docs)).Some? ==>
        && r == Ok(())
        && documents == old(documents) + docs
        && documentEmbeddings == old(documentEmbeddings) + embeddings.EmbedDocuments(Texts(docs)).value
      ensures r.Ok? && (old(documents) == [] || old(Aligned())) ==> Aligned()
      ensures old(Aligned()) && old(documents) != [] ==> Aligned()
    {
      if documents != [] {
        var embedded := embeddings.EmbedDocuments(Texts(docs));
        if embedded.None? {
          return Err(EmbeddingFailed);
        }
        documents := documents + docs;
        documentEmbeddings := documentEmbeddings + embedded.value;
        r := Ok(());
      } else {
        r := CreateVectorstore(docs);
      }
    }

    /** What `similarity_search(query, k)` may return, given the positions
        `top` the selection picked. */
    ghost predicate SearchOutcome(query: string, k: int, r: Result<seq<Document>, Error>, top: seq<nat>)
      reads this
    {
      if documents == [] then r == Err(ValueError(StoreNotInitialized))
      else match embeddings.EmbedQuery(query)
        case None => r == Err(EmbeddingFailed)
        case Some(q) =>
          match Scores(q, documentEmbeddings)
          case Err(e) => r == Err(e)
          case Ok(s) => IsTopK(s, top, TakeCount(k, |s|)) && r == Pick(documents, top)
    }

    /** `similarity_search(query, k)`: an empty store raises ValueError;
        otherwise score every stored embedding against the query's and
        return the documents at the best `k` positions, best first. */
    method SimilaritySearch(query: string, k: int) returns (r: Result<seq<Document>, Error>, ghost top: seq<nat>)
      ensures SearchOutcome(query, k, r, top)
    {
      if documents == [] {
        return Err(ValueError(StoreNotInitialized)), [];
      }
      var q := embeddings.EmbedQuery(query);
      if q.None? {
        return Err(EmbeddingFailed), [];
      }
      var similarities: seq<real> := [];
      var i := 0;
      while i < |documentEmbeddings|
        invariant 0 <= i <= |documentEmbeddings| && |similarities| == i
        invariant forall j :: 0 <= j < i ==> |documentEmbeddings[j]| == |q.value|
        invariant forall j :: 0 <= j < i ==>
          similarities[j] == CosineSimilarity(q.value, documentEmbeddings[j]).value
      {
        var s := CosineSimilarity(q.value, documentEmbeddings[i]);
        if s.Err? {
          return Err(s.error), [];
        }
        similarities := similarities + [s.value];
        i := i + 1;
      }
      assert Scores(q.value, documentEmbeddings) == Ok(similarities) by {
        assert !exists j :: 0 <= j < |documentEmbeddings| && |documentEmbeddings[j]| != |q.value|;
        var embs := documentEmbeddings;
        assert similarities == seq(|embs|, j requires 0 <= j < |embs| => CosineSimilarity(q.value, embs[j]).value);
      }
      var best := SelectTop(similarities, TakeCount(k, |similarities|));
      var picked: seq<Document> := [];
      i := 0;
      while i < |best|
        invariant 0 <= i <= |best| && |picked| == i
        invariant forall j :: 0 <= j < i ==> best[j] < |documents| && picked[j] == documents[best[j]]
      {
        if best[i] >= |documents| {
          assert !(forall j :: 0 <= j < |best| ==> best[j] < |documents|);
          return Err(IndexOutOfRange), best;
        }
        picked := picked + [documents[best[i]]];
        i := i + 1;
      }
      var docs := documents;
      assert picked == seq(|best|, j requires 0 <= j < |best| => docs[best[j]]);
      r, top := Ok(picked), best;
    }

    /** `as_retriever(search_kwargs=...)`: refused on an empty store;
        otherwise a retriever over this very store (it sees later additions)
        with `k` taken from the keyword arguments, 3 by default. */
    method AsRetriever(searchKwargs: Option<map<string, int>>) returns (r: Result<Retriever, Error>)
      ensures documents == [] ==> r == Err(ValueError(StoreNotInitialized))
      ensures documents != [] ==>
        r.Ok? && fresh(r.value) && r.value.store == this && r.value.k == RetrieverK(searchKwargs)
    {
      if documents == [] {
        return Err(ValueError(StoreNotInitialized));
      }
      var retriever := new Retriever(this, RetrieverK(searchKwargs));
      r := Ok(retriever);
    }
  }

  /** Searching an aligned store never runs off the end of the documents:
      it returns exactly `TakeCount(k, n)` documents, `min(k, n)` for a
      positive `k`, and every one of them is stored. */
  lemma {:induction false} AlignedSearchShape(store: InMemoryStore, query: string, k: int, r: Result<seq<Document>, Error>, top: seq<nat>)
    requires store.Aligned() && store.SearchOutcome(query, k, r, top)
    requires r.Ok?
    ensures |r.value| == TakeCount(k, |store.documents|)
    ensures k >= 1 ==> |r.value| == Min(k, |store.documents|)
    ensures forall i :: 0 <= i < |r.value| ==> r.value[i] in store.documents
  {
  }

  /** On an aligned store a search fails only for a missing store, a failed
      query embedding or a dimension mismatch, never with IndexError. */
  lemma {:induction false} AlignedSearchNeverIndexError(store: InMemoryStore, query: string, k: int, r: Result<seq<Document>, Error>, top: seq<nat>)
    requires store.Aligned() && store.SearchOutcome(query, k, r, top)
    ensures r != Err(IndexOutOfRange)
  {
  }

  /** Whatever the store's alignment, a search ranks the stored embeddings
      and returns the documents at the same positions: the documents past
      the last embedding are never returned, and when the two lists do not
      line up, a document is returned for another document's embedding. */
  lemma {:induction false} SearchPicksByEmbeddingPosition(store: InMemoryStore, query: string, k: int, r: Result<seq<Document>, Error>, top: seq<nat>)
    requires store.SearchOutcome(query, k, r, top)
    requires r.Ok?
    ensures |r.value| == |top|
    ensures forall i :: 0 <= i < |top| ==> top[i] < |store.documentEmbeddings| && top[i] < |store.documents|
    ensures forall i :: 0 <= i < |top| ==> r.value[i] == store.documents[top[i]]
  {
  }

  /** `SimpleRetriever`: a store and a `k`. */
  class Retriever {
    const store: InMemoryStore
    const k: int

    constructor (store: InMemoryStore, k: int)
      ensures this.store == store && this.k == k
    {
      this.store := store;
      this.k := k;
    }

    /** `get_relevant_documents(query)` is `similarity_search(query, k)`. */
    method GetRelevantDocuments(query: string) returns (r: Result<seq<Document>, Error>, ghost top: seq<nat>)
      ensures store.SearchOutcome(query, k, r, top)
    {
      r, top := store.SimilaritySearch(query, k);
    }

    /** `invoke(query)` is `get_relevant_documents(query)`. */
    method Invoke(query: string) returns (r: Result<seq<Document>, Error>, ghost top: seq<nat>)
      ensures store.SearchOutcome(query, k, r, top)
    {
      r, top := GetRelevantDocuments(query);
    }
  }
}
