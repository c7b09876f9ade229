/** The document side of the chatbot (utils/document_utils.py): a processor
    that loads the documents, splits them into chunks, builds and persists
    a vector database of them, caches that database, and retrieves the
    documents most relevant to a query. The file system, the embedding
    service and the vector store are a `DocumentEnvironment`: what each
    call returns or the exception it raises. */
module Documents {
  import opened Outcomes
  import opened Text

  /** A `langchain` document: its text and its metadata. */
  datatype Document = Document(pageContent: string, metadata: map<string, string>)

  /** A handle on a vector database (`Chroma`). */
  datatype VectorDb = VectorDb(id: nat)

  /** What the outside world answers the processor:
      - `dbDirExists`: `os.path.exists(db_dir)`;
      - `openExisting`: `Chroma(persist_directory=db_dir, ...)`;
      - `load`: what the directory loader returns, or raises;
      - `split`: the text splitter on the loaded documents;
      - `fromDocuments`: `Chroma.from_documents` on the chunks;
      - `persistError`: the error `persist()` raises, if any;
      - `search`: the `k` documents a database's retriever returns for a
        query, or the error it raises, on the processor's `n`-th retrieval
        (the embedding service and the store are asked afresh each time and
        need not answer alike). */
  datatype DocumentEnvironment = DocumentEnvironment(
    dbDirExists: bool,
    openExisting: Outcome<VectorDb>,
    load: Outcome<seq<Document>>,
    split: seq<Document> -> Outcome<seq<Document>>,
    fromDocuments: seq<Document> -> Outcome<VectorDb>,
    persistError: VectorDb -> Option<string>,
    search: (nat, VectorDb, string, nat) -> Outcome<seq<Document>>)

  /** `load_documents`: a loading error is logged and gives no documents. */
  function Loaded(env: DocumentEnvironment): (docs: seq<Document>)
    ensures env.load.Raised? ==> |docs| == 0
  {
    match env.load
    case Raised(_) => []
    case Done(docs) => docs
  }

  /** `process_documents` from cache `cache`: whether it reports success and
      the cache afterwards. The database is cached as soon as it is built,
      so a failure to persist it reports failure yet leaves it cached. */
  function Processing(env: DocumentEnvironment, cache: Option<VectorDb>): (r: (bool, Option<VectorDb>))
    ensures r.0 <==>
      |Loaded(env)| > 0 && env.split(Loaded(env)).Done?
      && env.fromDocuments(env.split(Loaded(env)).value).Done?
      && env.persistError(env.fromDocuments(env.split(Loaded(env)).value).value).None?
    ensures r.1 == cache ||
      (|Loaded(env)| > 0 && env.split(Loaded(env)).Done? && env.fromDocuments(env.split(Loaded(env)).value).Done?
       && r.1 == Some(env.fromDocuments(env.split(Loaded(env)).value).value))
    ensures r.0 ==> r.1.Some?
  {
    var documents := Loaded(env);
    if |documents| == 0 then (false, cache)
    else
      match env.split(documents)
      case Raised(_) => (false, cache)
      case Done(chunks) =>
        match env.fromDocuments(chunks)
        case Raised(_) => (false, cache)
        case Done(db) => (env.persistError(db).None?, Some(db))
  }

  /** `get_vector_db` from cache `cache`: the database it returns and the
      cache afterwards. A cached database is returned as is; otherwise an
      existing one on disk is opened, and failing that one is built. */
  function Acquire(env: DocumentEnvironment, cache: Option<VectorDb>): (r: (Option<VectorDb>, Option<VectorDb>))
    ensures cache.Some? ==> r == (cache, cache)
    ensures r.0.Some? ==> r.1 == r.0
    ensures r.1.None? ==> r.0.None?
  {
    if cache.Some? then (cache, cache)
    else if env.dbDirExists && env.openExisting.Done? then (Some(env.openExisting.value), Some(env.openExisting.value))
    else
      var (ok, after) := Processing(env, cache);
      if ok then (after, after) else (None, after)
  }

  /** Once a database has been returned, later calls return the same one
      from the cache without consulting the disk, the loader or the
      embedding service. */
  lemma AcquireIdempotent(env: DocumentEnvironment, later: DocumentEnvironment, cache: Option<VectorDb>)
    ensures var (db, after) := Acquire(env, cache);
      db.Some? ==> Acquire(later, after) == (db, after)
  {
  }

  /** When the database is built but persisting it fails, the first call
      returns no database, yet caches it: the second call returns it. */
  lemma PersistFailureCachesAnyway(env: DocumentEnvironment, db: VectorDb, error: string)
    requires !(env.dbDirExists && env.openExisting.Done?)
    requires |Loaded(env)| > 0 && env.split(Loaded(env)).Done?
    requires env.fromDocuments(env.split(Loaded(env)).value) == Done(db)
    requires env.persistError(db) == Some(error)
    ensures Acquire(env, None) == (None, Some(db))
    ensures Acquire(env, Acquire(env, None).1) == (Some(db), Some(db))
  {
  }

  /** What a search gives: its documents, or none when it raises. */
  function Found(search: Outcome<seq<Document>>): seq<Document> {
    match search
    case Raised(_) => []
    case Done(docs) => docs
  }

  /** `retrieve_documents`, as the processor's `n`-th retrieval, from cache
      `cache`: the documents and the cache afterwards. It never raises:
      without a database, or when the search fails, it returns no
      documents. */
  function Retrieval(env: DocumentEnvironment, cache: Option<VectorDb>, n: nat, query: string, k: nat): (r: (seq<Document>, Option<VectorDb>))
    ensures r.1 == Acquire(env, cache).1
    ensures Acquire(env, cache).0.None? ==> |r.0| == 0
    ensures Acquire(env, cache).0.Some? ==> r.0 == Found(env.search(n, Acquire(env, cache).0.value, query, k))
  {
    var (db, after) := Acquire(env, cache);
    match db
    case None => ([], after)
    case Some(d) => (Found(env.search(n, d, query, k)), after)
  }

  /** A retrieval that found documents leaves their database cached: every
      later retrieval searches that same database, without the disk, the
      loader or the embedding builder, and keeps the cache. */
  lemma RetrievalKeepsDatabase(env: DocumentEnvironment, later: DocumentEnvironment, cache: Option<VectorDb>, n: nat, m: nat, query: string, k: nat)
    requires later.search == env.search
    ensures var (docs, after) := Retrieval(env, cache, n, query, k);
      |docs| > 0 ==>
        (after == Acquire(env, cache).0 && after.Some?
         && Retrieval(later, after, m, query, k) == (Found(env.search(m, after.value, query, k)), after))
  {
  }

  /** `DocumentProcessor`: the environment it works in, the cached vector
      database (`None` until one is opened or built) and how many
      retrievals it has served, which tells the outside world's answers to
      successive searches apart. */
  class DocumentProcessor {
    const env: DocumentEnvironment
    var vectorDb: Option<VectorDb>
    var retrievals: nat

    constructor (env: DocumentEnvironment)
      ensures this.env == env && vectorDb == None && retrievals == 0
    {
      this.env := env;
      vectorDb := None;
      retrievals := 0;
    }

    /** `process_documents`. */
    method ProcessDocuments() returns (ok: bool)
      modifies this
      ensures (ok, vectorDb) == Processing(env, old(vectorDb))
      ensures retrievals == old(retrievals)
    {
      var documents := Loaded(env);
      if |documents| == 0 {
        return false;
      }
      var chunks := env.split(documents);
      if chunks.Raised? {
        return false;
      }
      var created := env.fromDocuments(chunks.value);
      if created.Raised? {
        return false;
      }
      vectorDb := Some(created.value);
      var persistError := env.persistError(created.value);
      if persistError.Some? {
        return false;
      }
      return true;
    }

    /** `get_vector_db`. */
    method GetVectorDb() returns (db: Option<VectorDb>)
      modifies this
      ensures (db, vectorDb) == Acquire(env, old(vectorDb))
      ensures retrievals == old(retrievals)
    {
      if vectorDb.Some? {
        return vectorDb;
      }
      if env.dbDirExists && env.openExisting.Done? {
        vectorDb := Some(env.openExisting.value);
        return vectorDb;
      }
      var ok := ProcessDocuments();
      if ok {
        return vectorDb;
      }
      return None;
    }

    /** `retrieve_documents`. */
    method RetrieveDocuments(query: string, k: nat) returns (docs: seq<Document>)
      modifies this
      ensures (docs, vectorDb) == Retrieval(env, old(vectorDb), old(retrievals), query, k)
      ensures retrievals == old(retrievals) + 1
    {
      var n := retrievals;
      retrievals := retrievals + 1;
      var db := GetVectorDb();
      if db.None? {
        return [];
      }
      var found := env.search(n, db.value, query, k);
      if found.Raised? {
        return [];
      }
      return found.value;
    }
  }

  const NoDocumentsMessage := "No relevant documents found."
  const DocumentSeparator := "\n\n"

  /** The texts of the documents, in order. */
  function PageContents(docs: seq<Document>): (r: seq<string>)
    ensures |r| == |docs| && forall i | 0 <= i < |docs| :: r[i] == docs[i].pageContent
  {
    seq(|docs|, i requires 0 <= i < |docs| => docs[i].pageContent)
  }

  /** `get_document_content`: the texts joined by blank lines, or a fixed
      message when there are no documents. */
  function DocumentContent(docs: seq<Document>): (r: string)
    ensures |docs| == 0 ==> r == NoDocumentsMessage
    ensures |docs| == 1 ==> r == docs[0].pageContent
  {
    if |docs| == 0 then NoDocumentsMessage
    else Join(PageContents(docs), DocumentSeparator)
  }

  /** Each part occurs in the joined text. */
  lemma {:induction false} JoinHasEach(parts: seq<string>, sep: string, i: nat)
    requires i < |parts|
    ensures Contains(Join(parts, sep), parts[i])
    decreases |parts|
  {
    if |parts| == 1 {
      assert parts[0] == "" + parts[0] + "";
      ContainsMiddle("", parts[0], "");
    } else if i == 0 {
      assert Join(parts, sep) == "" + parts[0] + (sep + Join(parts[1..], sep));
      ContainsMiddle("", parts[0], sep + Join(parts[1..], sep));
    } else {
      JoinHasEach(parts[1..], sep, i - 1);
      ContainsAfter(parts[0] + sep, Join(parts[1..], sep), parts[i]);
    }
  }

  /** Every retrieved document's text is part of the context. */
  lemma DocumentContentHasEach(docs: seq<Document>, i: nat)
    requires i < |docs|
    ensures Contains(DocumentContent(docs), docs[i].pageContent)
  {
    JoinHasEach(PageContents(docs), DocumentSeparator, i);
  }
}
