/** The ChromaDB-backed store (src/vector_store/chroma_store_persistent.py).
    ChromaDB itself is opaque: the collection is modelled as the sequence of
    records it holds, in insertion order, with oracles for the two calls
    whose outcome the model cannot compute (whether an `add` is refused,
    and what a nearest-neighbour `query` answers). What is modelled is the
    store's own bookkeeping: replace on create, append on add, the id
    numbering, the `min(k, count)` request, `score = 1 - distance`, and the
    search that turns every error into an empty result. */
module PersistentStore {
  import opened Wrappers
  import opened Strings
  import opened Documents

  /** The id `doc_{index}_{hash}`: the record's number and Python's
      `hash` of the first 100 characters of its text. */
  datatype RecordId = RecordId(index: nat, hash: int)

  datatype Record = Record(id: RecordId, embedding: Vector, text: string, metadata: Metadata)

  /** The inner lists of a `collection.query` result for one query
      embedding: `documents[0]`, `metadatas[0]` and `distances[0]`. An
      empty list stands for a missing or empty entry. */
  datatype QueryResult = QueryResult(documents: seq<string>, metadatas: seq<Metadata>, distances: seq<real>)

  const NoMetadata := Metadata(None, None, None)

  /** The metadata of hit `i`: the stored metadata (or `{}` when the result
      carries none) with `score` set to one minus the cosine distance when
      the result carries distances. */
  function HitMetadata(res: QueryResult, i: nat): Metadata
    requires i < |res.documents|
    requires res.metadatas == [] || i < |res.metadatas|
    requires res.distances == [] || i < |res.distances|
  {
    var m := if res.metadatas != [] then res.metadatas[i] else NoMetadata;
    if res.distances != [] then m.(score := Some(1.0 - res.distances[i])) else m
  }

  /** The documents `similarity_search` builds from a query result; `None`
      when a metadata or distance list is shorter than the hit list, where
      Python raises IndexError. */
  function Converted(res: QueryResult): Option<seq<Document>>
  {
    if (res.metadatas != [] && |res.metadatas| < |res.documents|)
       || (res.distances != [] && |res.distances| < |res.documents|)
    then None
    else Some(seq(|res.documents|, i requires 0 <= i < |res.documents| =>
                   Document(res.documents[i], HitMetadata(res, i))))
  }

  /** A converted hit keeps the hit's text and order and its stored
      source and chunk, and its score is one minus its distance. */
  lemma {:induction false} ConvertedHitsAreScored(res: QueryResult)
    requires Converted(res).Some?
    ensures |Converted(res).value| == |res.documents|
    ensures forall i :: 0 <= i < |res.documents| ==>
      && Converted(res).value[i].pageContent == res.documents[i]
      && (res.metadatas != [] ==>
            Converted(res).value[i].metadata.source == res.metadatas[i].source
            && Converted(res).value[i].metadata.chunk == res.metadatas[i].chunk)
      && (res.metadatas == [] ==> Converted(res).value[i].metadata.source.None?)
      && (res.distances != [] ==> Converted(res).value[i].metadata.score == Some(1.0 - res.distances[i]))
  {
  }

  /** A ChromaDB collection. `addFails(existing, added)` says when `add`
      raises; `search(q, records, n)` is the answer to a query for `n`
      results, `None` when it raises. Once the client has deleted the
      collection it is `dropped`: it holds nothing, and every call on it
      raises. */
  class Collection {
    var records: seq<Record>
    var dropped: bool
    const addFails: (seq<Record>, seq<Record>) -> bool
    const search: (Vector, seq<Record>, int) -> Option<QueryResult>

    constructor (records: seq<Record>, addFails: (seq<Record>, seq<Record>) -> bool,
                 search: (Vector, seq<Record>, int) -> Option<QueryResult>)
      ensures this.records == records && this.addFails == addFails && this.search == search
      ensures !dropped
    {
      this.records := records;
      this.addFails := addFails;
      this.search := search;
      dropped := false;
    }

    /** Record `j` was stored as `doc_j_...`. */
    ghost predicate Numbered()
      reads this
    {
      forall j :: 0 <= j < |records| ==> records[j].id.index == j
    }

    /** ChromaDB never answers a query for `n` results with more than `n`. */
    ghost predicate Bounded()
    {
      forall q, recs, n :: search(q, recs, n).Some? ==> |search(q, recs, n).value.documents| <= Max(0, n)
    }

    /** `collection.count()` on a collection that has not been dropped. */
    function Count(): nat
      reads this
    {
      |records|
    }

    /** `collection.delete(ids=collection.get()['ids'])`: every record goes. */
    method DeleteAll()
      modifies this
      ensures records == [] && dropped == old(dropped)
    {
      records := [];
    }

    /** The client's `delete_collection(name)`: the collection is gone. */
    method Drop()
      modifies this
      ensures dropped && records == []
    {
      dropped := true;
      records := [];
    }

    /** `collection.add(...)`: the records are appended unless ChromaDB
        refuses them. */
    method Add(added: seq<Record>) returns (r: Result<(), Error>)
      modifies this
      ensures dropped == old(dropped)
      ensures addFails(old(records), added) ==> r.Err? && records == old(records)
      ensures !addFails(old(records), added) ==> r == Ok(()) && records == old(records) + added
    {
      if addFails(records, added) {
        return Err(StoreFailed);
      }
      records := records + added;
      r := Ok(());
    }
  }

  /** Numbered records have pairwise distinct ids. */
  lemma {:induction false} NumberedIdsAreDistinct(c: Collection, i: nat, j: nat)
    requires c.Numbered() && i < j < |c.records|
    ensures c.records[i].id != c.records[j].id
  {
    assert c.records[i].id.index == i && c.records[j].id.index == j;
  }

  /** `ChromaVectorStore` (persistent). `hash` is Python's string hash,
      which is salted per process; `deleteFails` says whether the client
      refuses to delete a collection that exists. */
  class ChromaStore {
    const embeddings: Embedder
    const collectionName: string
    const collection: Collection
    const hash: string -> int
    const deleteFails: bool

    constructor (embeddings: Embedder, collectionName: string, collection: Collection, hash: string -> int, deleteFails: bool)
      ensures this.embeddings == embeddings && this.collectionName == collectionName
      ensures this.collection == collection && this.hash == hash && this.deleteFails == deleteFails
    {
      this.embeddings := embeddings;
      this.collectionName := collectionName;
      this.collection := collection;
      this.hash := hash;
      this.deleteFails := deleteFails;
    }

    /** The records for `docs` with embeddings `embs`, numbered from
        `first`: ids `doc_{first + i}_{hash(text[:100])}`. */
    function NewRecords(docs: seq<Document>, embs: seq<Vector>, first: nat): seq<Record>
      requires |embs| == |docs|
    {
      seq(|docs|, i requires 0 <= i < |docs| =>
        Record(RecordId(first + i, hash(Slice(docs[i].pageContent, 0, 100))), embs[i],
               docs[i].pageContent, docs[i].metadata))
    }

    /** Numbering the new records on from the count keeps a positionally
        numbered collection numbered by position, and record `count + i`
        holds document `i`'s text, metadata and embedding under the hash
        of its first 100 characters. */
    lemma {:induction false} NewRecordsContinueNumbering(recs: seq<Record>, docs: seq<Document>, embs: seq<Vector>)
      requires |embs| == |docs|
      requires forall j :: 0 <= j < |recs| ==> recs[j].id.index == j
      ensures var all := recs + NewRecords(docs, embs, |recs|);
        |all| == |recs| + |docs|
        && (forall j :: 0 <= j < |all| ==> all[j].id.index == j)
        && (forall i :: 0 <= i < |docs| ==>
              all[|recs| + i].id.hash == hash(Slice(docs[i].pageContent, 0, 100))
              && all[|recs| + i].text == docs[i].pageContent
              && all[|recs| + i].metadata == docs[i].metadata
              && all[|recs| + i].embedding == embs[i])
    {
      var added := NewRecords(docs, embs, |recs|);
      var all := recs + added;
      forall j | 0 <= j < |all|
        ensures all[j].id.index == j
      {
        if j >= |recs| {
          assert all[j] == added[j - |recs|];
        }
      }
    }

    /** What `create_vectorstore(docs)` does to a collection that held
        `before`. Nothing for no documents; nothing if embedding fails
        (the embeddings are computed before anything is deleted);
        nothing if the collection was dropped (counting it raises);
        otherwise every old record is deleted and the new ones are added,
        numbered from 0, so an `add` that ChromaDB refuses leaves the
        collection empty. */
    ghost predicate Created(docs: seq<Document>, r: Result<(), Error>, before: seq<Record>)
      reads this, collection
    {
      if docs == [] then r == Ok(()) && collection.records == before
      else match embeddings.EmbedDocuments(Texts(docs))
        case None => r == Err(EmbeddingFailed) && collection.records == before
        case Some(embs) =>
          if collection.dropped then r == Err(StoreFailed) && collection.records == before
          else if collection.addFails([], NewRecords(docs, embs, 0)) then r.Err? && collection.records == []
          else r == Ok(()) && collection.records == NewRecords(docs, embs, 0)
    }

    /** `create_vectorstore(documents)`. */
    method CreateVectorstore(docs: seq<Document>) returns (r: Result<(), Error>)
      modifies collection
      ensures collection.dropped == old(collection.dropped)
      ensures Created(docs, r, old(collection.records))
      ensures collection.Numbered()
        || (collection.records == old(collection.records) && !old(collection.Numbered()))
    {
      if docs == [] {
        return Ok(());
      }
      var embedded := embeddings.EmbedDocuments(Texts(docs));
      if embedded.None? {
        return Err(EmbeddingFailed);
      }
      var added := NewRecords(docs, embedded.value, 0);
      if collection.dropped {
        return Err(StoreFailed);
      }
      if collection.Count() > 0 {
        collection.DeleteAll();
      }
      r := collection.Add(added);
    }

    /** `add_documents(documents)`: on a dropped collection the first
        `count()` raises and nothing changes; on an empty collection exactly
        `create_vectorstore`; otherwise the new records are numbered on
        from the current count and appended, and a failed embedding or a
        refused `add` changes nothing. */
    method AddDocuments(docs: seq<Document>) returns (r: Result<(), Error>)
      modifies collection
      ensures collection.dropped == old(collection.dropped)
      ensures old(collection.dropped) ==> r == Err(StoreFailed) && collection.records == old(collection.records)
      ensures !old(collection.dropped) && old(collection.records) == [] ==> Created(docs, r, old(collection.records))
      ensures !old(collection.dropped) && old(collection.records) != [] && embeddings.EmbedDocuments(Texts(docs)).None? ==>
        r == Err(EmbeddingFailed) && collection.records == old(collection.records)
      ensures !old(collection.dropped) && old(collection.records) != [] && embeddings.EmbedDocuments(Texts(docs)).Some? ==>
        var added := NewRecords(docs, embeddings.EmbedDocuments(Texts(docs)).value, |old(collection.records)|);
        if collection.addFails(old(collection.records), added)
        then r.Err? && collection.records == old(collection.records)
        else r == Ok(()) && collection.records == old(collection.records) + added
      ensures old(collection.Numbered()) ==> collection.Numbered()
    {
      if collection.dropped {
        return Err(StoreFailed);
      }
      if collection.Count() == 0 {
        r := CreateVectorstore(docs);
        return;
      }
      var existingCount := collection.Count();
      var embedded := embeddings.EmbedDocuments(Texts(docs));
      if embedded.None? {
        return Err(EmbeddingFailed);
      }
      var added := NewRecords(docs, embedded.value, existingCount);
      r := collection.Add(added);
    }

    /** What `similarity_search(query, k)` returns: the converted hits of a
        query for `min(k, count)` results, and `[]` when the collection is
        empty or dropped or anything on the way raises. */
    function Found(query: string, k: int): seq<Document>
      reads collection
    {
      if collection.dropped || collection.records == [] then []
      else match embeddings.EmbedQuery(query)
        case None => []
        case Some(q) =>
          match collection.search(q, collection.records, Min(k, |collection.records|))
          case None => []
          case Some(res) => Converted(res).GetOr([])
    }

    /** `similarity_search(query, k)`. */
    method SimilaritySearch(query: string, k: int) returns (r: seq<Document>)
      ensures r == Found(query, k)
    {
      if collection.dropped || collection.Count() == 0 {
        return [];
      }
      var q := embeddings.EmbedQuery(query);
      if q.None? {
        return [];
      }
      var results := collection.search(q.value, collection.records, Min(k, collection.Count()));
      if results.None? {
        return [];
      }
      var res := results.value;
      var documents: seq<Document> := [];
      var i := 0;
      while i < |res.documents|
        invariant 0 <= i <= |res.documents| && |documents| == i
        invariant res.metadatas == [] || i <= |res.metadatas|
        invariant res.distances == [] || i <= |res.distances|
        invariant forall j :: 0 <= j < i ==> documents[j] == Document(res.documents[j], HitMetadata(res, j))
      {
        if (res.metadatas != [] && i >= |res.metadatas|) || (res.distances != [] && i >= |res.distances|) {
          return [];
        }
        documents := documents + [Document(res.documents[i], HitMetadata(res, i))];
        i := i + 1;
      }
      r := documents;
    }

    /** `delete_collection()`: `True` when the client drops the collection,
        which then holds nothing; `False` when the client raises, because
        it refuses or because the collection was dropped already, and then
        nothing changes. */
    method DeleteCollection() returns (ok: bool)
      modifies collection
      ensures ok == (!deleteFails && !old(collection.dropped))
      ensures ok ==> collection.dropped && collection.records == []
      ensures !ok ==> collection.dropped == old(collection.dropped) && collection.records == old(collection.records)
    {
      if deleteFails || collection.dropped {
        return false;
      }
      collection.Drop();
      ok := true;
    }
  }

  /** After `delete_collection` succeeds, a search finds nothing, whatever
      the embedder and ChromaDB would answer. */
  lemma {:induction false} DroppedCollectionFindsNothing(store: ChromaStore, query: string, k: int)
    requires store.collection.dropped
    ensures store.Found(query, k) == []
  {
  }

  /** A search returns at most `min(k, count)` documents, none for an empty
      collection or a non-positive `k`. */
  lemma {:induction false} FoundIsBounded(store: ChromaStore, query: string, k: int)
    requires store.collection.Bounded()
    ensures |store.Found(query, k)| <= Max(0, Min(k, store.collection.Count()))
    ensures store.collection.Count() == 0 ==> store.Found(query, k) == []
  {
    var c := store.collection;
    if c.records != [] && store.embeddings.EmbedQuery(query).Some? {
      var q := store.embeddings.EmbedQuery(query).value;
      var n := Min(k, |c.records|);
      if c.search(q, c.records, n).Some? {
        var res := c.search(q, c.records, n).value;
        assert |res.documents| <= Max(0, n);
        if Converted(res).Some? {
          ConvertedHitsAreScored(res);
        }
      }
    }
  }
}
