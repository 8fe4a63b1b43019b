/** A document processed again and again: at-least-once deliveries, crashes between transactions, different vectors on
    every try. */
module Redelivery {
  import opened Collections
  import opened IngestionRepository

  /** What a delivery of one document's message works on; chunking is deterministic. */
  datatype Job = Job(workspace: WorkspaceId, document: DocumentId, drafts: seq<Draft>)

  /** One transaction of a delivery. `given` is what the cache or the provider would give for a chunk this time. */
  datatype Op =
    | Mark(status: Status)
    | Store
    | Attach(given: ChunkId -> Vector, tag: Tag)
    | Fail(failure: Failure)

  /** A chunk that has a vector keeps it. */
  function Resolve(row: ChunkRow, given: Vector): Vector {
    if row.embedding.Some? then row.embedding.value.vector else given
  }

  /** The (id, vector) list of a document's stored chunks, in whatever order they are listed. */
  ghost predicate Lists(chunks: map<ChunkId, ChunkRow>, d: DocumentId, given: ChunkId -> Vector, pairs: seq<Pair>) {
    && (forall pair <- pairs :: pair.id in chunks && pair.id.document == d &&
                                pair.vector == Resolve(chunks[pair.id], given(pair.id)))
    && (forall id <- chunks :: id.document == d ==> Listed(pairs, id))
  }

  function EmbedAll(
    chunks: map<ChunkId, ChunkRow>, d: DocumentId, given: ChunkId -> Vector, tag: Tag): map<ChunkId, ChunkRow>
  {
    map id <- chunks ::
      if id.document == d then chunks[id].(embedding := Some(Embedding(Resolve(chunks[id], given(id)), tag)))
      else chunks[id]
  }

  predicate Sized(chunks: map<ChunkId, ChunkRow>, d: DocumentId, given: ChunkId -> Vector) {
    forall id <- chunks :: id.document == d ==> |Resolve(chunks[id], given(id))| == DIMENSIONS
  }

  function Apply(job: Job, t: Tables, op: Op): Tables {
    var d := job.document;
    match op
    case Mark(status) => UpdatedStatus(t, d, status)
    case Store => Inserted(t, job.workspace, d, job.drafts, Embed)
    case Attach(given, tag) =>
      if !Sized(t.chunks, d, given) then t
      else Tables(EmbedAll(t.chunks, d, given, tag), SetStatus(t.documents, d, Ready),
                  PutNew(t.outbox, ReadyOf(d), DocumentReady(job.workspace, d)), t.deleted)
    case Fail(failure) => MarkedFailed(t, job.workspace, d, failure)
  }

  function Run(job: Job, t: Tables, ops: seq<Op>): Tables
    decreases |ops|
  {
    if ops == [] then t else Run(job, Apply(job, t, ops[0]), ops[1..])
  }

  lemma {:induction false} RunJoin(job: Job, t: Tables, a: seq<Op>, b: seq<Op>)
    ensures Run(job, t, a + b) == Run(job, Run(job, t, a), b)
    decreases |a|
  {
    if a == [] {
      assert a + b == b;
    } else {
      assert (a + b)[1..] == a[1..] + b;
      RunJoin(job, Apply(job, t, a[0]), a[1..], b);
    }
  }

  // ---------- Apply is what the repository does ----------

  lemma {:induction false} UpdateRowsMeaning(
    chunks: map<ChunkId, ChunkRow>, d: DocumentId, given: ChunkId -> Vector, pairs: seq<Pair>, tag: Tag, id: ChunkId)
    requires id in chunks
    requires forall pair <- pairs :: pair.id in chunks && pair.id.document == d &&
                                     pair.vector == Resolve(chunks[pair.id], given(pair.id))
    ensures id in UpdateRows(chunks, pairs, tag)
    ensures UpdateRows(chunks, pairs, tag)[id] ==
            if Listed(pairs, id) then
              chunks[id].(embedding := Some(Embedding(Resolve(chunks[id], given(id)), tag)))
            else chunks[id]
    decreases |pairs|
  {
    if pairs != [] {
      var front, last := pairs[..|pairs| - 1], pairs[|pairs| - 1];
      assert last in pairs && forall pair <- front :: pair in pairs;
      UpdateRowsMeaning(chunks, d, given, front, tag, id);
      ListedSnoc(front, last, id);
      assert pairs == front + [last];
    }
  }

  predicate Listed(pairs: seq<Pair>, id: ChunkId) {
    exists pair <- pairs :: pair.id == id
  }

  lemma ListedSnoc(front: seq<Pair>, last: Pair, id: ChunkId)
    ensures Listed(front + [last], id) <==> Listed(front, id) || last.id == id
  {
    assert last in front + [last];
    assert forall pair <- front :: pair in front + [last];
  }

  lemma {:induction false} UpdateRowsKeys(chunks: map<ChunkId, ChunkRow>, pairs: seq<Pair>, tag: Tag)
    ensures UpdateRows(chunks, pairs, tag).Keys == chunks.Keys
    decreases |pairs|
  {
    if pairs != [] {
      UpdateRowsKeys(chunks, pairs[..|pairs| - 1], tag);
    }
  }

  /** Listing a document's chunks, resolving their vectors and updating row by row embeds exactly that document's
      chunks, whatever the order of the listing. */
  lemma AttachRefines(
    job: Job, t: Tables, given: ChunkId -> Vector, pairs: seq<Pair>, tag: Tag)
    requires Lists(t.chunks, job.document, given, pairs)
    ensures Attached(t, job.workspace, job.document, pairs, tag, Ready) == Apply(job, t, Attach(given, tag))
  {
    var d := job.document;
    assert Attachable(pairs) <==> Sized(t.chunks, d, given);
    forall id <- t.chunks
      ensures id in UpdateRows(t.chunks, pairs, tag)
      ensures UpdateRows(t.chunks, pairs, tag)[id] == EmbedAll(t.chunks, d, given, tag)[id]
    {
      UpdateRowsMeaning(t.chunks, d, given, pairs, tag, id);
    }
    UpdateRowsKeys(t.chunks, pairs, tag);
    assert UpdateRows(t.chunks, pairs, tag) == EmbedAll(t.chunks, d, given, tag);
  }

  /** Every chunk of the list is stored under its number; rows already there win; nothing else changes. */
  lemma {:induction false} InsertMeaning(
    chunks: map<ChunkId, ChunkRow>, w: WorkspaceId, d: DocumentId, drafts: seq<Draft>, id: ChunkId)
    ensures var rows := InsertRows(chunks, Inserts(w, d, 0, drafts));
            && (id in rows <==> id in chunks || (id.document == d && id.index < |drafts|))
            && (id in rows ==>
                  rows[id] == if id in chunks then chunks[id] else ChunkRow(w, drafts[id.index], None))
    decreases |drafts|
  {
    if drafts != [] {
      var last := |drafts| - 1;
      assert Inserts(w, d, 0, drafts)[..last] == Inserts(w, d, 0, drafts[..last]);
      InsertMeaning(chunks, w, d, drafts[..last], id);
    }
  }

  // ---------- The chunk table over any sequence of transactions ----------

  /** How far a document's chunks have come. */
  datatype Phase = Unseen | Stored | Embedded(given: ChunkId -> Vector, tag: Tag)

  predicate AllSized(job: Job, given: ChunkId -> Vector) {
    forall i: nat :: i < |job.drafts| ==> |given(ChunkId(job.document, i))| == DIMENSIONS
  }

  /** The first vectors stay; the label is always the latest one. */
  function PhaseStep(job: Job, phase: Phase, op: Op): Phase {
    match op
    case Store => if phase.Unseen? then Stored else phase
    case Attach(given, tag) =>
      (match phase
       case Unseen => Unseen
       case Stored => if AllSized(job, given) then Embedded(given, tag) else Stored
       case Embedded(first, _) => Embedded(first, tag))
    case _ => phase
  }

  function PhaseAfter(job: Job, phase: Phase, ops: seq<Op>): Phase
    decreases |ops|
  {
    if ops == [] then phase else PhaseAfter(job, PhaseStep(job, phase, ops[0]), ops[1..])
  }

  function StoredRows(job: Job, chunks: map<ChunkId, ChunkRow>): map<ChunkId, ChunkRow> {
    InsertRows(chunks, Inserts(job.workspace, job.document, 0, job.drafts))
  }

  function ChunksAt(job: Job, chunks: map<ChunkId, ChunkRow>, phase: Phase): map<ChunkId, ChunkRow> {
    match phase
    case Unseen => chunks
    case Stored => StoredRows(job, chunks)
    case Embedded(given, tag) => EmbedAll(StoredRows(job, chunks), job.document, given, tag)
  }

  /** The document exists, has no chunks yet, and its chunks satisfy the table's check. */
  predicate Unprocessed(job: Job, t: Tables) {
    && job.document in t.documents && WellFormed(job.drafts)
    && forall id <- t.chunks :: id.document != job.document
  }

  lemma StoredRowsMeaning(job: Job, t: Tables, id: ChunkId)
    requires Unprocessed(job, t)
    ensures var rows := StoredRows(job, t.chunks);
            && (id in rows <==> id in t.chunks || (id.document == job.document && id.index < |job.drafts|))
            && (id in t.chunks ==> rows[id] == t.chunks[id])
            && (id in rows && id.document == job.document ==> rows[id] == NewRow(job.workspace, job.drafts[id.index]))
  {
    InsertMeaning(t.chunks, job.workspace, job.document, job.drafts, id);
  }

  /** Storing again changes nothing. */
  lemma StoreAgain(job: Job, t: Tables, chunks: map<ChunkId, ChunkRow>)
    requires Unprocessed(job, t) && chunks.Keys == StoredRows(job, t.chunks).Keys
    ensures StoredRows(job, chunks) == chunks
  {
    forall id: ChunkId
      ensures id in StoredRows(job, chunks) <==> id in chunks
      ensures id in chunks ==> StoredRows(job, chunks)[id] == chunks[id]
    {
      StoredRowsMeaning(job, t, id);
      InsertMeaning(chunks, job.workspace, job.document, job.drafts, id);
    }
  }

  lemma SizedWhenStored(job: Job, t: Tables, given: ChunkId -> Vector)
    requires Unprocessed(job, t)
    ensures Sized(StoredRows(job, t.chunks), job.document, given) <==> AllSized(job, given)
  {
    var rows := StoredRows(job, t.chunks);
    forall id <- rows | id.document == job.document
      ensures id.index < |job.drafts| && Resolve(rows[id], given(id)) == given(id)
    {
      StoredRowsMeaning(job, t, id);
    }
    forall i: nat | i < |job.drafts|
      ensures ChunkId(job.document, i) in rows
    {
      StoredRowsMeaning(job, t, ChunkId(job.document, i));
    }
  }

  predicate SoundPhase(job: Job, phase: Phase) {
    phase.Embedded? ==> AllSized(job, phase.given)
  }

  /** Attaching again keeps every vector and only renews the label. */
  lemma AttachAgain(job: Job, t: Tables, first: ChunkId -> Vector, old_: Tag, given: ChunkId -> Vector, tag: Tag)
    requires Unprocessed(job, t) && AllSized(job, first)
    ensures var rows := ChunksAt(job, t.chunks, Embedded(first, old_));
            && Sized(rows, job.document, given)
            && EmbedAll(rows, job.document, given, tag) == ChunksAt(job, t.chunks, Embedded(first, tag))
  {
    var rows := ChunksAt(job, t.chunks, Embedded(first, old_));
    SizedWhenStored(job, t, first);
    forall id <- rows | id.document == job.document
      ensures |Resolve(rows[id], given(id))| == DIMENSIONS
    {
      StoredRowsMeaning(job, t, id);
    }
  }

  lemma NothingToEmbed(job: Job, t: Tables, given: ChunkId -> Vector, tag: Tag)
    requires Unprocessed(job, t)
    ensures Sized(t.chunks, job.document, given) && EmbedAll(t.chunks, job.document, given, tag) == t.chunks
  {
  }

  lemma PhaseFollowsStep(job: Job, t0: Tables, t: Tables, phase: Phase, op: Op)
    requires Unprocessed(job, t0) && SoundPhase(job, phase)
    requires t.chunks == ChunksAt(job, t0.chunks, phase) && job.document in t.documents
    ensures var t', phase' := Apply(job, t, op), PhaseStep(job, phase, op);
            t'.chunks == ChunksAt(job, t0.chunks, phase') && job.document in t'.documents && SoundPhase(job, phase')
  {
    match op
    case Store => if !phase.Unseen? { StoreAgain(job, t0, t.chunks); }
    case Attach(given, tag) =>
      match phase {
        case Unseen => NothingToEmbed(job, t0, given, tag);
        case Stored => SizedWhenStored(job, t0, given);
        case Embedded(first, old_) => AttachAgain(job, t0, first, old_, given, tag);
      }
    case _ =>
  }

  /** The chunk table after any sequence of a document's transactions, in any order and with any repetitions: decided
      by the first store, the first attach after it, and the last label. */
  lemma {:induction false} ChunkTableAfter(job: Job, t0: Tables, t: Tables, phase: Phase, ops: seq<Op>)
    requires Unprocessed(job, t0) && SoundPhase(job, phase)
    requires t.chunks == ChunksAt(job, t0.chunks, phase) && job.document in t.documents
    ensures Run(job, t, ops).chunks == ChunksAt(job, t0.chunks, PhaseAfter(job, phase, ops))
    decreases |ops|
  {
    if ops != [] {
      PhaseFollowsStep(job, t0, t, phase, ops[0]);
      ChunkTableAfter(job, t0, Apply(job, t, ops[0]), PhaseStep(job, phase, ops[0]), ops[1..]);
    }
  }

  // ---------- The outbox ----------

  /** The notice an operation asks for under an id. */
  predicate Asks(job: Job, op: Op, id: OutboxId, notice: Notice) {
    || (op.Attach? && id == ReadyOf(job.document) && notice == DocumentReady(job.workspace, job.document))
    || (op.Fail? && id == FailedAt(job.document, op.failure.stage)
        && notice == DocumentFailed(job.workspace, job.document, op.failure))
  }

  /** Over any sequence of transactions outbox rows are never changed or removed, and each new one was asked for. */
  lemma {:induction false} OutboxAfter(job: Job, t: Tables, ops: seq<Op>, id: OutboxId)
    ensures var outbox := Run(job, t, ops).outbox;
            if id in t.outbox then id in outbox && outbox[id] == t.outbox[id]
            else id in outbox ==> exists op <- ops :: Asks(job, op, id, outbox[id])
    decreases |ops|
  {
    if ops != [] {
      var next, outbox := Apply(job, t, ops[0]), Run(job, t, ops).outbox;
      OutboxAfter(job, next, ops[1..], id);
      if id !in t.outbox && id in outbox {
        if id in next.outbox {
          assert Asks(job, ops[0], id, outbox[id]);
        } else {
          var op :| op in ops[1..] && Asks(job, op, id, outbox[id]);
          assert op in ops;
        }
      }
    }
  }

  // ---------- Deliveries ----------

  /** How a delivery would end if nothing interrupted it. */
  datatype Ending =
    | Malware(reason: string)
    | Unparsable(reason: string)
    | NoVectors(reason: string)
    | Finished(given: ChunkId -> Vector, tag: Tag)

  /** A delivery interrupted after some of its transactions; a transaction the database refuses ends one too. */
  datatype Delivery = Delivery(ending: Ending, stop: nat)

  function Plan(ending: Ending): seq<Op> {
    match ending
    case Malware(reason) => [Mark(Scanning), Fail(Failure("scanning", reason))]
    case Unparsable(reason) => [Mark(Scanning), Mark(Parsing), Fail(Failure("parsing", reason))]
    case NoVectors(reason) =>
      [Mark(Scanning), Mark(Parsing), Mark(Chunking), Store, Fail(Failure("embedding", reason))]
    case Finished(given, tag) =>
      [Mark(Scanning), Mark(Parsing), Mark(Chunking), Store, Attach(given, tag)]
  }

  function OpsOf(y: Delivery): seq<Op> {
    Plan(y.ending)[..if y.stop <= |Plan(y.ending)| then y.stop else |Plan(y.ending)|]
  }

  function AllOps(ys: seq<Delivery>): seq<Op> {
    if ys == [] then [] else OpsOf(ys[0]) + AllOps(ys[1..])
  }

  predicate Complete(job: Job, y: Delivery) {
    y.ending.Finished? && y.stop >= 5 && AllSized(job, y.ending.given)
  }

  lemma {:induction false} PhaseJoin(job: Job, phase: Phase, a: seq<Op>, b: seq<Op>)
    ensures PhaseAfter(job, phase, a + b) == PhaseAfter(job, PhaseAfter(job, phase, a), b)
    decreases |a|
  {
    if a == [] {
      assert a + b == b;
    } else {
      assert (a + b)[1..] == a[1..] + b;
      PhaseJoin(job, PhaseStep(job, phase, a[0]), a[1..], b);
    }
  }

  /** What one delivery does to the phase. */
  function Delivered(job: Job, phase: Phase, y: Delivery): Phase {
    match phase
    case Embedded(first, _) =>
      if y.ending.Finished? && y.stop >= 5 then Embedded(first, y.ending.tag) else phase
    case _ =>
      if Complete(job, y) then Embedded(y.ending.given, y.ending.tag)
      else if y.stop >= 4 && (y.ending.Finished? || y.ending.NoVectors?) then Stored
      else phase
  }

  lemma {:induction false} PhaseSnoc(job: Job, phase: Phase, ops: seq<Op>, op: Op)
    ensures PhaseAfter(job, phase, ops + [op]) == PhaseStep(job, PhaseAfter(job, phase, ops), op)
  {
    PhaseJoin(job, phase, ops, [op]);
    assert [op][1..] == [];
  }

  /** Status changes and failures leave the chunk table alone. */
  lemma {:induction false} QuietOps(job: Job, phase: Phase, ops: seq<Op>)
    requires forall op <- ops :: op.Mark? || op.Fail?
    ensures PhaseAfter(job, phase, ops) == phase
    decreases |ops|
  {
    if ops != [] {
      assert ops[0] in ops;
      QuietOps(job, phase, ops[1..]);
    }
  }

  /** On the table itself, from any state. */
  lemma {:induction false} QuietOpsKeepChunks(job: Job, t: Tables, ops: seq<Op>)
    requires forall op <- ops :: op.Mark? || op.Fail?
    ensures Run(job, t, ops).chunks == t.chunks
    decreases |ops|
  {
    if ops != [] {
      assert ops[0] in ops;
      QuietOpsKeepChunks(job, Apply(job, t, ops[0]), ops[1..]);
    }
  }

  lemma DeliveryPhase(job: Job, phase: Phase, y: Delivery)
    ensures PhaseAfter(job, phase, OpsOf(y)) == Delivered(job, phase, y)
  {
    var ops, marks := OpsOf(y), [Mark(Scanning), Mark(Parsing), Mark(Chunking)];
    if y.stop >= 4 && (y.ending.Finished? || y.ending.NoVectors?) {
      QuietOps(job, phase, marks);
      PhaseSnoc(job, phase, marks, Store);
      if y.stop == 4 {
        assert ops == marks + [Store];
      } else {
        PhaseSnoc(job, phase, marks + [Store], Plan(y.ending)[4]);
        assert ops == marks + [Store] + [Plan(y.ending)[4]];
      }
    } else {
      QuietOps(job, phase, ops);
    }
  }

  function DeliveredAll(job: Job, phase: Phase, ys: seq<Delivery>): Phase
    decreases |ys|
  {
    if ys == [] then phase else DeliveredAll(job, Delivered(job, phase, ys[0]), ys[1..])
  }

  lemma {:induction false} DeliveriesPhase(job: Job, phase: Phase, ys: seq<Delivery>)
    ensures PhaseAfter(job, phase, AllOps(ys)) == DeliveredAll(job, phase, ys)
    decreases |ys|
  {
    if ys != [] {
      DeliveryPhase(job, phase, ys[0]);
      PhaseJoin(job, phase, OpsOf(ys[0]), AllOps(ys[1..]));
      DeliveriesPhase(job, Delivered(job, phase, ys[0]), ys[1..]);
    }
  }

  lemma {:induction false} NotYetEmbedded(job: Job, phase: Phase, ys: seq<Delivery>)
    requires !phase.Embedded? && forall y <- ys :: !Complete(job, y)
    ensures !DeliveredAll(job, phase, ys).Embedded?
    decreases |ys|
  {
    if ys != [] {
      assert ys[0] in ys;
      NotYetEmbedded(job, Delivered(job, phase, ys[0]), ys[1..]);
    }
  }

  /** The label of the last delivery that attaches, if any does. */
  function LastTag(ys: seq<Delivery>, tag: Tag): Tag
    decreases |ys|
  {
    if ys == [] then tag
    else LastTag(ys[1..], if ys[0].ending.Finished? && ys[0].stop >= 5 then ys[0].ending.tag else tag)
  }

  lemma {:induction false} OnceEmbedded(job: Job, first: ChunkId -> Vector, tag: Tag, ys: seq<Delivery>)
    ensures DeliveredAll(job, Embedded(first, tag), ys) == Embedded(first, LastTag(ys, tag))
    decreases |ys|
  {
    if ys != [] {
      OnceEmbedded(job, first, if ys[0].ending.Finished? && ys[0].stop >= 5 then ys[0].ending.tag else tag, ys[1..]);
    }
  }

  lemma {:induction false} SameTags(ys: seq<Delivery>, tag: Tag)
    requires forall y <- ys :: y.ending.Finished? ==> y.ending.tag == tag
    ensures LastTag(ys, tag) == tag
    decreases |ys|
  {
    if ys != [] {
      assert ys[0] in ys;
      SameTags(ys[1..], tag);
    }
  }

  lemma {:induction false} AllOpsJoin(a: seq<Delivery>, b: seq<Delivery>)
    ensures AllOps(a + b) == AllOps(a) + AllOps(b)
  {
    if a == [] {
      assert a + b == b;
    } else {
      assert (a + b)[1..] == a[1..] + b;
      AllOpsJoin(a[1..], b);
    }
  }

  // ---------- The outbox over deliveries ----------

  /** A delivery that ends in a permanent failure and gets as far as recording it. */
  predicate Fails(y: Delivery) {
    !y.ending.Finished? && y.stop >= |Plan(y.ending)|
  }

  function FailureOf(y: Delivery): Failure
    requires !y.ending.Finished?
  {
    match y.ending
    case Malware(reason) => Failure("scanning", reason)
    case Unparsable(reason) => Failure("parsing", reason)
    case NoVectors(reason) => Failure("embedding", reason)
  }

  /** What a document's outbox rows are after its deliveries, told by the deliveries alone. */
  function Announced(job: Job, outbox: map<OutboxId, Notice>, ys: seq<Delivery>): map<OutboxId, Notice>
    decreases |ys|
  {
    if ys == [] then outbox else Announced(job, AnnouncedBy(job, outbox, ys[0]), ys[1..])
  }

  function WithReady(job: Job, outbox: map<OutboxId, Notice>): map<OutboxId, Notice> {
    PutNew(outbox, ReadyOf(job.document), DocumentReady(job.workspace, job.document))
  }

  function WithFailed(job: Job, outbox: map<OutboxId, Notice>, f: Failure): map<OutboxId, Notice> {
    PutNew(outbox, FailedAt(job.document, f.stage), DocumentFailed(job.workspace, job.document, f))
  }

  function AnnouncedBy(job: Job, outbox: map<OutboxId, Notice>, y: Delivery): map<OutboxId, Notice> {
    if Complete(job, y) then WithReady(job, outbox)
    else if Fails(y) then WithFailed(job, outbox, FailureOf(y))
    else outbox
  }

  /** Neither status changes nor stored chunks touch the outbox. */
  lemma {:induction false} SilentOps(job: Job, t: Tables, ops: seq<Op>)
    requires forall op <- ops :: op.Mark? || op.Store?
    ensures Run(job, t, ops).outbox == t.outbox
    decreases |ops|
  {
    if ops != [] {
      assert ops[0] in ops;
      SilentOps(job, Apply(job, t, ops[0]), ops[1..]);
    }
  }

  /** The chunk table is at a phase, and embedded chunks have been announced. */
  ghost predicate InStep(job: Job, t0: Tables, t: Tables, phase: Phase) {
    && SoundPhase(job, phase) && t.chunks == ChunksAt(job, t0.chunks, phase) && job.document in t.documents
    && (phase.Embedded? ==> ReadyOf(job.document) in t.outbox)
  }

  lemma LastOpOutbox(job: Job, t0: Tables, t: Tables, phase: Phase, op: Op)
    requires Unprocessed(job, t0) && InStep(job, t0, t, phase)
    requires op.Fail? || (op.Attach? && !phase.Unseen?)
    ensures Apply(job, t, op).outbox ==
            if op.Fail? then WithFailed(job, t.outbox, op.failure)
            else if AllSized(job, op.given) then WithReady(job, t.outbox)
            else t.outbox
  {
    if op.Attach? {
      if phase.Stored? {
        SizedWhenStored(job, t0, op.given);
      } else {
        AttachAgain(job, t0, phase.given, phase.tag, op.given, op.tag);
      }
    }
  }

  lemma DeliveryTables(job: Job, t0: Tables, t: Tables, phase: Phase, y: Delivery)
    requires Unprocessed(job, t0) && InStep(job, t0, t, phase)
    ensures Run(job, t, OpsOf(y)).outbox == AnnouncedBy(job, t.outbox, y)
    ensures InStep(job, t0, Run(job, t, OpsOf(y)), Delivered(job, phase, y))
  {
    ChunksFollow(job, t0, t, phase, y);
    if y.stop < |Plan(y.ending)| {
      assert forall op <- OpsOf(y) :: op.Mark? || op.Store?;
      SilentOps(job, t, OpsOf(y));
    } else {
      WholeDelivery(job, t0, t, phase, y);
    }
  }

  lemma WholeDelivery(job: Job, t0: Tables, t: Tables, phase: Phase, y: Delivery)
    requires Unprocessed(job, t0) && InStep(job, t0, t, phase) && y.stop >= |Plan(y.ending)|
    ensures Run(job, t, OpsOf(y)).outbox == AnnouncedBy(job, t.outbox, y)
  {
    var n := |Plan(y.ending)| - 1;
    var begun, last := Delivery(y.ending, n), Plan(y.ending)[n];
    assert forall op <- OpsOf(begun) :: op.Mark? || op.Store?;
    SilentOps(job, t, OpsOf(begun));
    ChunksFollow(job, t0, t, phase, begun);
    assert OpsOf(y) == OpsOf(begun) + [last];
    RunSnoc(job, t, OpsOf(begun), last);
    LastOpOutbox(job, t0, Run(job, t, OpsOf(begun)), Delivered(job, phase, begun), last);
  }

  lemma RunSnoc(job: Job, t: Tables, ops: seq<Op>, op: Op)
    ensures Run(job, t, ops + [op]) == Apply(job, Run(job, t, ops), op)
  {
    RunJoin(job, t, ops, [op]);
    assert [op][1..] == [];
  }

  lemma ChunksFollow(job: Job, t0: Tables, t: Tables, phase: Phase, y: Delivery)
    requires Unprocessed(job, t0) && InStep(job, t0, t, phase)
    ensures var t', phase' := Run(job, t, OpsOf(y)), Delivered(job, phase, y);
            && SoundPhase(job, phase') && t'.chunks == ChunksAt(job, t0.chunks, phase')
            && job.document in t'.documents
  {
    DeliveryPhase(job, phase, y);
    ChunkTableAfter(job, t0, t, phase, OpsOf(y));
    DocumentStays(job, t, OpsOf(y));
  }

  lemma {:induction false} DocumentStays(job: Job, t: Tables, ops: seq<Op>)
    requires job.document in t.documents
    ensures job.document in Run(job, t, ops).documents
    decreases |ops|
  {
    if ops != [] {
      DocumentStays(job, Apply(job, t, ops[0]), ops[1..]);
    }
  }

  lemma {:induction false} DeliveriesTables(job: Job, t0: Tables, t: Tables, phase: Phase, ys: seq<Delivery>)
    requires Unprocessed(job, t0) && InStep(job, t0, t, phase)
    ensures Run(job, t, AllOps(ys)).outbox == Announced(job, t.outbox, ys)
    decreases |ys|
  {
    if ys != [] {
      DeliveryTables(job, t0, t, phase, ys[0]);
      RunJoin(job, t, OpsOf(ys[0]), AllOps(ys[1..]));
      DeliveriesTables(job, t0, Run(job, t, OpsOf(ys[0])), Delivered(job, phase, ys[0]), ys[1..]);
    }
  }

  ghost predicate SomeFails(ys: seq<Delivery>) {
    exists y <- ys :: Fails(y)
  }

  ghost predicate SomeCompletes(job: Job, ys: seq<Delivery>) {
    exists y <- ys :: Complete(job, y)
  }

  lemma SomeOf(job: Job, ys: seq<Delivery>)
    requires ys != []
    ensures SomeFails(ys) <==> Fails(ys[0]) || SomeFails(ys[1..])
    ensures SomeCompletes(job, ys) <==> Complete(job, ys[0]) || SomeCompletes(job, ys[1..])
  {
    assert ys == [ys[0]] + ys[1..];
  }

  /** The rows of one document: the failed notice if any, the ready notice if any. */
  function Rows(
    job: Job, outbox: map<OutboxId, Notice>, failed: bool, f: Failure, ready: bool): map<OutboxId, Notice>
  {
    var rows := if failed then WithFailed(job, outbox, f) else outbox;
    if ready then WithReady(job, rows) else rows
  }

  lemma RowsStep(job: Job, outbox: map<OutboxId, Notice>, y: Delivery, failed: bool, f: Failure, ready: bool)
    requires Fails(y) ==> FailureOf(y) == f
    ensures Rows(job, AnnouncedBy(job, outbox, y), failed, f, ready)
         == Rows(job, outbox, failed || Fails(y), f, ready || Complete(job, y))
  {
  }

  lemma {:induction false} AnnouncedIs(job: Job, outbox: map<OutboxId, Notice>, ys: seq<Delivery>, f: Failure)
    requires forall y <- ys :: Fails(y) ==> FailureOf(y) == f
    ensures Announced(job, outbox, ys) == Rows(job, outbox, SomeFails(ys), f, SomeCompletes(job, ys))
    decreases |ys|
  {
    if ys != [] {
      SomeOf(job, ys);
      assert ys[0] in ys && forall y <- ys[1..] :: y in ys;
      AnnouncedIs(job, AnnouncedBy(job, outbox, ys[0]), ys[1..], f);
      RowsStep(job, outbox, ys[0], SomeFails(ys[1..]), f, SomeCompletes(job, ys[1..]));
    }
  }

  /** The outbox rows after any deliveries whose permanent failures, if any, are the same: one ready notice if some
      delivery completed, one failed notice if some delivery failed, nothing else. */
  lemma OutboxOfDeliveries(job: Job, t: Tables, ys: seq<Delivery>, f: Failure)
    requires Unprocessed(job, t) && forall y <- ys :: Fails(y) ==> FailureOf(y) == f
    ensures Run(job, t, AllOps(ys)).outbox == Rows(job, t.outbox, SomeFails(ys), f, SomeCompletes(job, ys))
  {
    DeliveriesTables(job, t, t, Unseen, ys);
    AnnouncedIs(job, t.outbox, ys, f);
  }

  /** The first permanent failure of a stage. */
  function FirstFailure(ys: seq<Delivery>, stage: string): Option<Failure> {
    if ys == [] then None
    else if Fails(ys[0]) && FailureOf(ys[0]).stage == stage then Some(FailureOf(ys[0]))
    else FirstFailure(ys[1..], stage)
  }

  lemma {:induction false} AnnouncedAt(job: Job, outbox: map<OutboxId, Notice>, ys: seq<Delivery>, stage: string)
    ensures var rows, d := Announced(job, outbox, ys), job.document;
            && (ReadyOf(d) in rows <==> ReadyOf(d) in outbox || SomeCompletes(job, ys))
            && (FailedAt(d, stage) in rows <==> FailedAt(d, stage) in outbox || FirstFailure(ys, stage).Some?)
            && (FailedAt(d, stage) in rows && FailedAt(d, stage) !in outbox ==>
                  rows[FailedAt(d, stage)] == DocumentFailed(job.workspace, d, FirstFailure(ys, stage).value))
            && (ReadyOf(d) in rows && ReadyOf(d) !in outbox ==> rows[ReadyOf(d)] == DocumentReady(job.workspace, d))
            && (forall id <- outbox :: id in rows && rows[id] == outbox[id])
    decreases |ys|
  {
    if ys != [] {
      SomeOf(job, ys);
      AnnouncedAt(job, AnnouncedBy(job, outbox, ys[0]), ys[1..], stage);
    }
  }

  /** The outbox rows after any deliveries whatever, stage by stage: a ready notice if and only if some delivery
      completed; for each stage a failed notice if and only if some delivery failed there, and it is that of the
      first which did; rows that were there stay. */
  lemma OutboxPerStage(job: Job, t: Tables, ys: seq<Delivery>, stage: string)
    requires Unprocessed(job, t)
    ensures var rows, d := Run(job, t, AllOps(ys)).outbox, job.document;
            && (ReadyOf(d) in rows <==> ReadyOf(d) in t.outbox || SomeCompletes(job, ys))
            && (FailedAt(d, stage) in rows <==> FailedAt(d, stage) in t.outbox || FirstFailure(ys, stage).Some?)
            && (FailedAt(d, stage) in rows && FailedAt(d, stage) !in t.outbox ==>
                  rows[FailedAt(d, stage)] == DocumentFailed(job.workspace, d, FirstFailure(ys, stage).value))
            && (ReadyOf(d) in rows && ReadyOf(d) !in t.outbox ==> rows[ReadyOf(d)] == DocumentReady(job.workspace, d))
            && (forall id <- t.outbox :: id in rows && rows[id] == t.outbox[id])
  {
    DeliveriesTables(job, t, t, Unseen, ys);
    AnnouncedAt(job, t.outbox, ys, stage);
  }

  lemma SingleDelivery(y: Delivery)
    ensures AllOps([y]) == OpsOf(y)
  {
    assert [y][1..] == [];
  }

  /** A permanent failure repeated: the outbox is that of one run of it. */
  lemma RepeatedFailure(job: Job, t: Tables, ys: seq<Delivery>, y: Delivery)
    requires Unprocessed(job, t) && y in ys && Fails(y)
    requires forall z <- ys :: !Complete(job, z) && (Fails(z) ==> FailureOf(z) == FailureOf(y))
    ensures Run(job, t, AllOps(ys)).outbox == Run(job, t, OpsOf(y)).outbox
  {
    OutboxOfDeliveries(job, t, ys, FailureOf(y));
    OutboxOfDeliveries(job, t, [y], FailureOf(y));
    SingleDelivery(y);
    assert y in [y];
  }

  lemma RepeatedSuccess(job: Job, t: Tables, ys: seq<Delivery>, y: Delivery)
    requires Unprocessed(job, t) && y in ys && Complete(job, y) && forall z <- ys :: !Fails(z)
    ensures Run(job, t, AllOps(ys)).outbox == Run(job, t, OpsOf(y)).outbox
  {
    OutboxOfDeliveries(job, t, ys, Failure("", ""));
    OutboxOfDeliveries(job, t, [y], Failure("", ""));
    SingleDelivery(y);
    assert y in [y];
  }

  /** Redelivery is harmless: whatever deliveries of a document came before its first complete one, and however many
      come after it from the same embedder, interrupted anywhere and with whatever vectors, the chunk table is that of
      the one complete delivery alone; and unless one of them failed for good, so is the outbox. */
  lemma RedeliveryIsHarmless(job: Job, t: Tables, before: seq<Delivery>, y: Delivery, after: seq<Delivery>)
    requires Unprocessed(job, t) && Complete(job, y)
    requires forall b <- before :: !Complete(job, b)
    requires forall a <- after :: a.ending.Finished? ==> a.ending.tag == y.ending.tag
    ensures Run(job, t, AllOps(before + [y] + after)).chunks == Run(job, t, OpsOf(y)).chunks
    ensures (forall z <- before + [y] + after :: !Fails(z)) ==>
              Run(job, t, AllOps(before + [y] + after)).outbox == Run(job, t, OpsOf(y)).outbox
  {
    SameChunks(job, t, before, y, after);
    if forall z <- before + [y] + after :: !Fails(z) {
      RepeatedSuccess(job, t, before + [y] + after, y);
    }
  }

  lemma SameChunks(job: Job, t: Tables, before: seq<Delivery>, y: Delivery, after: seq<Delivery>)
    requires Unprocessed(job, t) && Complete(job, y)
    requires forall b <- before :: !Complete(job, b)
    requires forall a <- after :: a.ending.Finished? ==> a.ending.tag == y.ending.tag
    ensures Run(job, t, AllOps(before + [y] + after)).chunks == Run(job, t, OpsOf(y)).chunks
  {
    SameChunksIff(job, t, before, y, after);
    SameTags(after, y.ending.tag);
  }

  lemma PhaseOfAll(job: Job, before: seq<Delivery>, y: Delivery, after: seq<Delivery>)
    requires Complete(job, y) && forall b <- before :: !Complete(job, b)
    ensures PhaseAfter(job, Unseen, AllOps(before + [y] + after)) ==
            Embedded(y.ending.given, LastTag(after, y.ending.tag))
    ensures PhaseAfter(job, Unseen, OpsOf(y)) == Embedded(y.ending.given, y.ending.tag)
  {
    var once := Embedded(y.ending.given, y.ending.tag);
    NotYetEmbedded(job, Unseen, before);
    DeliveriesPhase(job, Unseen, before);
    DeliveryPhase(job, Unseen, y);
    DeliveryPhase(job, DeliveredAll(job, Unseen, before), y);
    DeliveriesPhase(job, once, after);
    OnceEmbedded(job, y.ending.given, y.ending.tag, after);
    AllOpsJoin(before + [y], after);
    AllOpsJoin(before, [y]);
    SingleDelivery(y);
    PhaseJoin(job, Unseen, AllOps(before) + OpsOf(y), AllOps(after));
    PhaseJoin(job, Unseen, AllOps(before), OpsOf(y));
  }

  /** Exactly when later deliveries leave the chunk table alone: if and only if the document has no chunks, or the last
      of them that attaches uses the same embedder. */
  lemma SameChunksIff(job: Job, t: Tables, before: seq<Delivery>, y: Delivery, after: seq<Delivery>)
    requires Unprocessed(job, t) && Complete(job, y)
    requires forall b <- before :: !Complete(job, b)
    ensures Run(job, t, AllOps(before + [y] + after)).chunks == Run(job, t, OpsOf(y)).chunks <==>
            job.drafts == [] || LastTag(after, y.ending.tag) == y.ending.tag
  {
    PhaseOfAll(job, before, y, after);
    ChunkTableAfter(job, t, t, Unseen, AllOps(before + [y] + after));
    ChunkTableAfter(job, t, t, Unseen, OpsOf(y));
    Relabelled(job, t, y.ending.given, y.ending.tag, LastTag(after, y.ending.tag));
  }

  /** The same-embedder condition is needed: a delivery repeated under another label relabels the old vectors, unless
      the document has no chunks. */
  lemma AnotherEmbedderRelabels(job: Job, t: Tables, y: Delivery, again: Delivery)
    requires Unprocessed(job, t) && Complete(job, y) && again.ending.Finished? && again.stop >= 5
    ensures Run(job, t, OpsOf(y) + OpsOf(again)).chunks == Run(job, t, OpsOf(y)).chunks <==>
            job.drafts == [] || again.ending.tag == y.ending.tag
  {
    var first, old_, new_ := y.ending.given, y.ending.tag, again.ending.tag;
    DeliveryPhase(job, Unseen, y);
    DeliveryPhase(job, Embedded(first, old_), again);
    PhaseJoin(job, Unseen, OpsOf(y), OpsOf(again));
    ChunkTableAfter(job, t, t, Unseen, OpsOf(y) + OpsOf(again));
    ChunkTableAfter(job, t, t, Unseen, OpsOf(y));
    Relabelled(job, t, first, old_, new_);
  }

  lemma Relabelled(job: Job, t: Tables, first: ChunkId -> Vector, old_: Tag, new_: Tag)
    requires Unprocessed(job, t)
    ensures ChunksAt(job, t.chunks, Embedded(first, new_)) == ChunksAt(job, t.chunks, Embedded(first, old_)) <==>
            job.drafts == [] || new_ == old_
  {
    var a, b := ChunksAt(job, t.chunks, Embedded(first, new_)), ChunksAt(job, t.chunks, Embedded(first, old_));
    if job.drafts != [] {
      var id := ChunkId(job.document, 0);
      StoredRowsMeaning(job, t, id);
      assert a[id].embedding == Some(Embedding(Resolve(StoredRows(job, t.chunks)[id], first(id)), new_));
      assert b[id].embedding == Some(Embedding(Resolve(StoredRows(job, t.chunks)[id], first(id)), old_));
    } else {
      forall id <- StoredRows(job, t.chunks)
        ensures id.document != job.document
      {
        StoredRowsMeaning(job, t, id);
      }
    }
  }

  ghost predicate Follows(job: Job, t0: Tables, t: Tables, phase: Phase) {
    && SoundPhase(job, phase) && t.chunks == ChunksAt(job, t0.chunks, phase) && job.document in t.documents
    && (ReadyOf(job.document) in t.outbox ==>
          t.outbox[ReadyOf(job.document)] == DocumentReady(job.workspace, job.document))
  }

  lemma {:induction false} FollowsRun(job: Job, t0: Tables, t: Tables, phase: Phase, ops: seq<Op>)
    requires Unprocessed(job, t0) && Follows(job, t0, t, phase)
    ensures Follows(job, t0, Run(job, t, ops), PhaseAfter(job, phase, ops))
    ensures ReadyOf(job.document) in t.outbox ==> ReadyOf(job.document) in Run(job, t, ops).outbox
    decreases |ops|
  {
    if ops != [] {
      PhaseFollowsStep(job, t0, t, phase, ops[0]);
      FollowsRun(job, t0, Apply(job, t, ops[0]), PhaseStep(job, phase, ops[0]), ops[1..]);
    }
  }

  lemma AttachMakesReady(job: Job, t0: Tables, t: Tables, phase: Phase, given: ChunkId -> Vector, tag: Tag)
    requires Unprocessed(job, t0) && Follows(job, t0, t, phase) && !phase.Unseen? && AllSized(job, given)
    ensures var t' := Apply(job, t, Attach(given, tag));
            && job.document in t'.documents && t'.documents[job.document].status == Ready
            && ReadyOf(job.document) in t'.outbox
  {
    if phase.Stored? {
      SizedWhenStored(job, t0, given);
    } else {
      AttachAgain(job, t0, phase.given, phase.tag, given, tag);
    }
  }

  /** A complete delivery, after anything, leaves the document ready; its one ready notice is then there for good,
      whatever comes later. */
  lemma CompleteIsReady(job: Job, t0: Tables, before: seq<Op>, y: Delivery, later: seq<Op>)
    requires Unprocessed(job, t0) && Complete(job, y) && ReadyOf(job.document) !in t0.outbox
    ensures var t := Run(job, Run(job, t0, before), OpsOf(y));
            && job.document in t.documents && t.documents[job.document].status == Ready
            && ReadyOf(job.document) in Run(job, t, later).outbox
            && Run(job, t, later).outbox[ReadyOf(job.document)] == DocumentReady(job.workspace, job.document)
  {
    FollowsRun(job, t0, t0, Unseen, before);
    var was, phase := Run(job, t0, before), PhaseAfter(job, Unseen, before);
    var start, last := Delivery(y.ending, 4), Attach(y.ending.given, y.ending.tag);
    FollowsRun(job, t0, was, phase, OpsOf(start));
    DeliveryPhase(job, phase, start);
    var ready, stored := Run(job, was, OpsOf(start)), Delivered(job, phase, start);
    AttachMakesReady(job, t0, ready, stored, y.ending.given, y.ending.tag);
    assert OpsOf(y) == OpsOf(start) + [last];
    RunJoin(job, was, OpsOf(start), [last]);
    assert [last][1..] == [];
    assert Run(job, was, OpsOf(y)) == Apply(job, ready, last);
    FollowsRun(job, t0, ready, stored, [last]);
    FollowsRun(job, t0, Apply(job, ready, last), PhaseAfter(job, stored, [last]), later);
  }

  /** What a complete delivery stores of a document that has no chunks yet: every chunk, with its vector and label. */
  lemma CompleteEmbeds(job: Job, t: Tables, y: Delivery, i: nat)
    requires Unprocessed(job, t) && Complete(job, y) && i < |job.drafts|
    ensures var id, chunks := ChunkId(job.document, i), Run(job, t, OpsOf(y)).chunks;
            && id in chunks
            && chunks[id] == ChunkRow(job.workspace, job.drafts[i],
                                      Some(Embedding(y.ending.given(id), y.ending.tag)))
  {
    DeliveryPhase(job, Unseen, y);
    ChunkTableAfter(job, t, t, Unseen, OpsOf(y));
    StoredRowsMeaning(job, t, ChunkId(job.document, i));
  }

  // ---------- Deletion ----------

  /** After a document has been deleted its chunks are gone. But no delivery looks for the deletion: a complete one that
      comes later stores them all again, under the deleted document. */
  lemma ErasedContentReturns(job: Job, t: Tables, erased: Tables, y: Delivery, i: nat)
    requires job.document in t.documents && job.document !in t.deleted && erased == Deleted(t, job.document)
    requires WellFormed(job.drafts) && Complete(job, y) && i < |job.drafts|
    ensures forall id <- t.chunks :: id in erased.chunks <==> id.document != job.document
    ensures erased.chunks.Items <= t.chunks.Items
    ensures var after, id := Run(job, erased, OpsOf(y)), ChunkId(job.document, i);
            && job.document in after.deleted && id in after.chunks && after.chunks[id].draft == job.drafts[i]
  {
    DeliveryPhase(job, Unseen, y);
    ChunkTableAfter(job, erased, erased, Unseen, OpsOf(y));
    StoredRowsMeaning(job, erased, ChunkId(job.document, i));
    DeletionStays(job, erased, OpsOf(y));
  }

  lemma {:induction false} DeletionStays(job: Job, t: Tables, ops: seq<Op>)
    ensures Run(job, t, ops).deleted == t.deleted
    decreases |ops|
  {
    if ops != [] {
      DeletionStays(job, Apply(job, t, ops[0]), ops[1..]);
    }
  }
}
