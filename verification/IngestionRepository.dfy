/** Chunk, document and outbox rows under at-least-once delivery: batched inserts and updates with derived ids. */
module IngestionRepository {
  import opened Collections

  type WorkspaceId = nat
  type DocumentId = nat
  type Vector = seq<real>

  const MAX_CHUNK_BATCH := 500
  const DIMENSIONS := 1536

  /** Name-based identifiers: equal exactly when document and name are. */
  datatype ChunkId = ChunkId(document: DocumentId, index: nat)
  datatype OutboxId = ReadyOf(document: DocumentId) | FailedAt(document: DocumentId, stage: string)

  datatype Draft = Draft(sectionPath: string, charStart: int, charEnd: int, content: string, tokenCount: int)
  datatype Tag = Tag(model: string, version: int)
  datatype Embedding = Embedding(vector: Vector, tag: Tag)
  datatype ChunkRow = ChunkRow(workspace: WorkspaceId, draft: Draft, embedding: Option<Embedding>)

  datatype Status = Pending | Scanning | Parsing | Chunking | Embed | Ready | Failed
  datatype Failure = Failure(stage: string, reason: string)
  datatype Document = Document(status: Status, failure: Option<Failure>)

  datatype Notice =
    | DocumentReady(tenant: WorkspaceId, document: DocumentId)
    | DocumentFailed(tenant: WorkspaceId, document: DocumentId, failure: Failure)

  /** `deleted` holds the documents whose deleted_at is set; their rows stay. */
  datatype Tables = Tables(
    chunks: map<ChunkId, ChunkRow>, documents: map<DocumentId, Document>, outbox: map<OutboxId, Notice>,
    deleted: set<DocumentId>)

  // ---------- The statements ----------

  /** INSERT .. ON CONFLICT (id) DO NOTHING. */
  function PutNew<K, V>(table: map<K, V>, id: K, row: V): map<K, V> {
    if id in table then table else table[id := row]
  }

  function NewRow(w: WorkspaceId, draft: Draft): ChunkRow {
    ChunkRow(w, draft, None)
  }

  datatype Insert = Insert(id: ChunkId, row: ChunkRow)

  /** A batch's statement arguments: its k-th chunk goes under id start + k. */
  function Inserts(w: WorkspaceId, d: DocumentId, start: nat, batch: seq<Draft>): (args: seq<Insert>)
    ensures |args| == |batch|
    ensures forall k :: 0 <= k < |args| ==> args[k] == Insert(ChunkId(d, start + k), NewRow(w, batch[k]))
  {
    seq(|batch|, k requires 0 <= k < |batch| => Insert(ChunkId(d, start + k), NewRow(w, batch[k])))
  }

  /** executemany: one insert after the other. */
  function InsertRows(chunks: map<ChunkId, ChunkRow>, args: seq<Insert>): map<ChunkId, ChunkRow> {
    if args == [] then chunks
    else
      var last := args[|args| - 1];
      PutNew(InsertRows(chunks, args[..|args| - 1]), last.id, last.row)
  }

  function SetEmbedding(
    chunks: map<ChunkId, ChunkRow>, id: ChunkId, vector: Vector, tag: Tag): map<ChunkId, ChunkRow>
  {
    if id in chunks then chunks[id := chunks[id].(embedding := Some(Embedding(vector, tag)))] else chunks
  }

  datatype Pair = Pair(id: ChunkId, vector: Vector)

  function UpdateRows(chunks: map<ChunkId, ChunkRow>, pairs: seq<Pair>, tag: Tag): map<ChunkId, ChunkRow> {
    if pairs == [] then chunks
    else
      var last := pairs[|pairs| - 1];
      SetEmbedding(UpdateRows(chunks, pairs[..|pairs| - 1], tag), last.id, last.vector, tag)
  }

  function SetStatus(documents: map<DocumentId, Document>, d: DocumentId, status: Status): map<DocumentId, Document> {
    if d in documents then documents[d := documents[d].(status := status)] else documents
  }

  // ---------- The four operations, each one transaction ----------

  function UpdatedStatus(t: Tables, d: DocumentId, status: Status): Tables {
    t.(documents := SetStatus(t.documents, d, status))
  }

  function MarkedFailed(t: Tables, w: WorkspaceId, d: DocumentId, f: Failure): Tables {
    Tables(t.chunks,
           if d in t.documents then t.documents[d := Document(Failed, Some(f))] else t.documents,
           PutNew(t.outbox, FailedAt(d, f.stage), DocumentFailed(w, d, f)),
           t.deleted)
  }

  /** CHECK (char_end > char_start). */
  predicate WellFormed(drafts: seq<Draft>) {
    forall draft <- drafts :: draft.charEnd > draft.charStart
  }

  /** The check, and the foreign key to documents. */
  predicate Insertable(t: Tables, d: DocumentId, drafts: seq<Draft>) {
    (drafts != [] ==> d in t.documents) && WellFormed(drafts)
  }

  function Inserted(t: Tables, w: WorkspaceId, d: DocumentId, drafts: seq<Draft>, next: Status): Tables {
    if !Insertable(t, d, drafts) then t
    else Tables(InsertRows(t.chunks, Inserts(w, d, 0, drafts)), SetStatus(t.documents, d, next), t.outbox, t.deleted)
  }

  predicate Attachable(pairs: seq<Pair>) {
    forall pair <- pairs :: |pair.vector| == DIMENSIONS
  }

  function Attached(
    t: Tables, w: WorkspaceId, d: DocumentId, pairs: seq<Pair>, tag: Tag, next: Status): Tables
  {
    if !Attachable(pairs) then t
    else
      Tables(UpdateRows(t.chunks, pairs, tag), SetStatus(t.documents, d, next),
             if next == Ready then PutNew(t.outbox, ReadyOf(d), DocumentReady(w, d)) else t.outbox,
             t.deleted)
  }

  /** The other repository's deletion of a document: the mark, and its chunks erased in the same transaction. */
  function Deleted(t: Tables, d: DocumentId): Tables {
    if d !in t.documents || d in t.deleted then t
    else t.(chunks := map id | id in t.chunks && id.document != d :: t.chunks[id], deleted := t.deleted + {d})
  }

  class PostgresIngestionRepository {
    var chunks: map<ChunkId, ChunkRow>
    var documents: map<DocumentId, Document>
    var outbox: map<OutboxId, Notice>
    var deleted: set<DocumentId>
    ghost var executed: seq<Insert>

    ghost function View(): Tables
      reads this
    {
      Tables(chunks, documents, outbox, deleted)
    }

    constructor (documents: map<DocumentId, Document>)
      ensures View() == Tables(map[], documents, map[], {}) && executed == []
    {
      chunks, outbox, deleted, executed := map[], map[], {}, [];
      this.documents := documents;
    }

    method UpdateStatus(d: DocumentId, status: Status)
      modifies this`documents
      ensures View() == UpdatedStatus(old(View()), d, status)
      ensures documents.Keys == old(documents).Keys && (d in documents ==> documents[d].status == status)
      ensures forall other <- documents :: other != d ==> documents[other] == old(documents)[other]
    {
      if d in documents {
        documents := documents[d := documents[d].(status := status)];
      }
    }

    method EnqueueIdempotent(id: OutboxId, notice: Notice)
      modifies this`outbox
      ensures outbox == PutNew(old(outbox), id, notice)
    {
      if id !in outbox {
        outbox := outbox[id := notice];
      }
    }

    /** The document is failed, with its stage and reason; the stage's notice is this one unless there was one. */
    method MarkFailed(w: WorkspaceId, d: DocumentId, stage: string, reason: string)
      modifies this`documents, this`outbox
      ensures View() == MarkedFailed(old(View()), w, d, Failure(stage, reason))
      ensures documents.Keys == old(documents).Keys
      ensures d in documents ==> documents[d].status == Failed && documents[d].failure == Some(Failure(stage, reason))
      ensures forall other <- documents :: other != d ==> documents[other] == old(documents)[other]
      ensures var id := FailedAt(d, stage);
              outbox == if id in old(outbox) then old(outbox)
                        else old(outbox)[id := DocumentFailed(w, d, Failure(stage, reason))]
    {
      if d in documents {
        documents := documents[d := Document(Failed, Some(Failure(stage, reason)))];
      }
      EnqueueIdempotent(FailedAt(d, stage), DocumentFailed(w, d, Failure(stage, reason)));
    }

    /** All or nothing. */
    method InsertChunksAndAdvance(w: WorkspaceId, d: DocumentId, drafts: seq<Draft>, next: Status)
      returns (ok: bool)
      modifies this
      ensures ok == Insertable(old(View()), d, drafts)
      ensures View() == Inserted(old(View()), w, d, drafts, next)
      ensures ok && d in documents ==> documents == old(documents)[d := old(documents)[d].(status := next)]
      ensures !ok ==> View() == old(View())
      ensures executed == old(executed) + if ok then Inserts(w, d, 0, drafts) else []
    {
      var rows, sent;
      ok, rows, sent := InsertInBatches(chunks, d in documents, w, d, drafts);
      if ok {
        chunks := rows;
        executed := executed + sent;
        UpdateStatus(d, next);
      }
    }

    method AttachEmbeddingsAndAdvance(w: WorkspaceId, d: DocumentId, pairs: seq<Pair>, tag: Tag, next: Status)
      returns (ok: bool)
      modifies this
      ensures ok == Attachable(pairs) && View() == Attached(old(View()), w, d, pairs, tag, next)
      ensures ok <==> forall pair <- pairs :: |pair.vector| == 1536
      ensures ok && d in documents ==> documents == old(documents)[d := old(documents)[d].(status := next)]
      ensures outbox == if ok && next == Ready && ReadyOf(d) !in old(outbox)
                        then old(outbox)[ReadyOf(d) := DocumentReady(w, d)] else old(outbox)
      ensures !ok ==> View() == old(View())
    {
      var rows, start := chunks, 0;
      while start < |pairs|
        invariant 0 <= start && unchanged(this)
        invariant rows == UpdateRows(chunks, pairs[..Done(start, pairs)], tag)
        invariant Attachable(pairs[..Done(start, pairs)])
      {
        var stop := Done(start + MAX_CHUNK_BATCH, pairs);
        var batch := pairs[start..stop];
        assert pairs[..stop] == pairs[..start] + batch;
        if !Attachable(batch) {
          assert forall pair <- batch :: pair in pairs;
          return false;
        }
        UpdateRowsJoin(chunks, pairs[..start], batch, tag);
        rows := UpdateRows(rows, batch, tag);
        start := start + MAX_CHUNK_BATCH;
      }
      assert pairs[..|pairs|] == pairs;
      chunks := rows;
      UpdateStatus(d, next);
      if next == Ready {
        EnqueueIdempotent(ReadyOf(d), DocumentReady(w, d));
      }
      ok := true;
    }
  }

  /** A position, cut off at the end of the list as slicing does. */
  function Done<T>(n: nat, list: seq<T>): (k: nat)
    ensures k <= |list|
  {
    if n <= |list| then n else |list|
  }

  /** The batches of one transaction, on its own copy of the table; stops at the first batch a constraint refuses.
      For every length, the batches together are the whole list in order: no chunk skipped, repeated or misnumbered. */
  method InsertInBatches(
    chunks: map<ChunkId, ChunkRow>, known: bool, w: WorkspaceId, d: DocumentId, drafts: seq<Draft>)
    returns (ok: bool, rows: map<ChunkId, ChunkRow>, sent: seq<Insert>)
    ensures ok <==> (drafts != [] ==> known) && WellFormed(drafts)
    ensures ok ==> sent == Inserts(w, d, 0, drafts) && rows == InsertRows(chunks, sent)
  {
    ok, rows, sent := true, chunks, [];
    var start := 0;
    while start < |drafts|
      invariant 0 <= start && ok
      invariant sent == Inserts(w, d, 0, drafts[..Done(start, drafts)]) && rows == InsertRows(chunks, sent)
      invariant (start > 0 ==> known) && WellFormed(drafts[..Done(start, drafts)])
    {
      var stop := Done(start + MAX_CHUNK_BATCH, drafts);
      var batch := drafts[start..stop];
      JoinSlices(drafts, 0, start, stop);
      assert drafts[..stop] == drafts[..start] + batch;
      if !known || !WellFormed(batch) {
        assert forall draft <- batch :: draft in drafts;
        ok := false;
        return;
      }
      WellFormedJoin(drafts[..start], batch);
      var args := Inserts(w, d, start, batch);
      InsertRowsJoin(chunks, sent, args);
      InsertsJoin(w, d, drafts[..start], batch);
      rows := InsertRows(rows, args);
      sent := sent + args;
      start := start + MAX_CHUNK_BATCH;
    }
    assert drafts[..|drafts|] == drafts;
  }

  lemma WellFormedJoin(a: seq<Draft>, b: seq<Draft>)
    requires WellFormed(a) && WellFormed(b)
    ensures WellFormed(a + b)
  {
  }

  lemma InsertsJoin(w: WorkspaceId, d: DocumentId, a: seq<Draft>, b: seq<Draft>)
    ensures Inserts(w, d, 0, a + b) == Inserts(w, d, 0, a) + Inserts(w, d, |a|, b)
  {
  }

  lemma {:induction false} InsertRowsJoin(chunks: map<ChunkId, ChunkRow>, a: seq<Insert>, b: seq<Insert>)
    ensures InsertRows(chunks, a + b) == InsertRows(InsertRows(chunks, a), b)
    decreases |b|
  {
    if b == [] {
      assert a + b == a;
    } else {
      assert (a + b)[..|a + b| - 1] == a + b[..|b| - 1];
      InsertRowsJoin(chunks, a, b[..|b| - 1]);
    }
  }

  lemma {:induction false} UpdateRowsJoin(chunks: map<ChunkId, ChunkRow>, a: seq<Pair>, b: seq<Pair>, tag: Tag)
    ensures UpdateRows(chunks, a + b, tag) == UpdateRows(UpdateRows(chunks, a, tag), b, tag)
    decreases |b|
  {
    if b == [] {
      assert a + b == a;
    } else {
      assert (a + b)[..|a + b| - 1] == a + b[..|b| - 1];
      UpdateRowsJoin(chunks, a, b[..|b| - 1], tag);
    }
  }
}
