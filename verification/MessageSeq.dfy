/** Per-thread message numbers under interleaved transactions: a locked counter row, commits and aborts. */
module MessageSeq {
  import opened Collections

  type ThreadId = nat

  datatype Row = Row(thread: ThreadId, seq_: nat, clientId: Option<string>, content: string)

  /** What a transaction's next statement of create() is about. */
  datatype At =
    | Ready
    | Ensured(t: ThreadId, id: Option<string>, content: string)
    | Locked(t: ThreadId, id: Option<string>, content: string, n: nat)
    | Bumped(t: ThreadId, id: Option<string>, content: string, n: nat)

  /** Uncommitted versions of the counter rows the transaction has locked, and its uncommitted messages. */
  datatype Txn = Txn(counters: map<ThreadId, nat>, rows: seq<Row>, at: At)

  const NO_TXN := Txn(map[], [], Ready)

  /** `rows` are the committed messages in commit order. */
  datatype Db = Db(counters: map<ThreadId, nat>, rows: seq<Row>, txns: seq<Txn>)

  /** One statement of one transaction; a statement that must wait, or is not next, changes nothing. */
  datatype Event =
    | EnsureCounter(i: nat, t: ThreadId, id: Option<string>, content: string)
    | LockCounter(i: nat)
    | WriteCounter(i: nat)
    | InsertMessage(i: nat)
    | Commit(i: nat)
    | Abort(i: nat)

  ghost predicate LockedByOther(db: Db, i: nat, t: ThreadId) {
    exists j :: 0 <= j < |db.txns| && j != i && t in db.txns[j].counters
  }

  /** UNIQUE (thread_id, client_message_id); NULLs never clash. */
  predicate Clash(a: Row, b: Row) {
    a.thread == b.thread && a.clientId.Some? && a.clientId == b.clientId
  }

  predicate Duplicate(rows: seq<Row>, r: Row) {
    exists k :: 0 <= k < |rows| && Clash(rows[k], r)
  }

  /** The thread has a message with that client message id, if one is given. */
  ghost predicate Taken(rows: seq<Row>, t: ThreadId, id: Option<string>) {
    id.Some? && exists k :: 0 <= k < |rows| && rows[k].thread == t && rows[k].clientId == id
  }

  lemma DuplicateIsTaken(rows: seq<Row>, r: Row)
    ensures Duplicate(rows, r) <==> Taken(rows, r.thread, r.clientId)
  {
    if Taken(rows, r.thread, r.clientId) {
      var k :| 0 <= k < |rows| && rows[k].thread == r.thread && rows[k].clientId == r.clientId;
      assert Clash(rows[k], r);
    }
  }

  function SetTxn(db: Db, i: nat, x: Txn): Db
    requires i < |db.txns|
  {
    db.(txns := db.txns[i := x])
  }

  ghost function Step(db: Db, e: Event): Db {
    if e.i >= |db.txns| then db
    else
      var x := db.txns[e.i];
      match e
      // INSERT .. ON CONFLICT DO NOTHING: waits for another transaction's uncommitted row, else inserts or skips
      case EnsureCounter(i, t, id, content) =>
        if !x.at.Ready? then db
        else if t in db.counters || t in x.counters then SetTxn(db, i, x.(at := Ensured(t, id, content)))
        else if LockedByOther(db, i, t) then db
        else SetTxn(db, i, x.(counters := x.counters[t := 1], at := Ensured(t, id, content)))
      // SELECT .. FOR UPDATE: waits for the lock, then reads its own or the latest committed version
      case LockCounter(i) =>
        if !x.at.Ensured? || LockedByOther(db, i, x.at.t) then db
        else if x.at.t in x.counters then
          SetTxn(db, i, x.(at := Locked(x.at.t, x.at.id, x.at.content, x.counters[x.at.t])))
        else if x.at.t in db.counters then
          SetTxn(db, i, x.(counters := x.counters[x.at.t := db.counters[x.at.t]],
                           at := Locked(x.at.t, x.at.id, x.at.content, db.counters[x.at.t])))
        else db
      case WriteCounter(i) =>
        if !x.at.Locked? then db
        else SetTxn(db, i, x.(counters := x.counters[x.at.t := x.at.n + 1],
                              at := Bumped(x.at.t, x.at.id, x.at.content, x.at.n)))
      // a unique violation aborts the transaction
      case InsertMessage(i) =>
        if !x.at.Bumped? then db
        else
          var row := Row(x.at.t, x.at.n, x.at.id, x.at.content);
          if Duplicate(db.rows + x.rows, row) then SetTxn(db, i, NO_TXN)
          else SetTxn(db, i, x.(rows := x.rows + [row], at := Ready))
      case Commit(i) =>
        if !x.at.Ready? then db
        else Db(db.counters + x.counters, db.rows + x.rows, db.txns[i := NO_TXN])
      case Abort(i) => SetTxn(db, i, NO_TXN)
  }

  ghost function Run(db: Db, es: seq<Event>): Db
    decreases |es|
  {
    if es == [] then db else Run(Step(db, es[0]), es[1..])
  }

  function Start(connections: nat): Db {
    Db(map[], [], seq(connections, _ => NO_TXN))
  }

  // ---------- The invariant ----------

  function ThreadRows(rows: seq<Row>, t: ThreadId): seq<Row> {
    if rows == [] then []
    else
      var last := rows[|rows| - 1];
      ThreadRows(rows[..|rows| - 1], t) + if last.thread == t then [last] else []
  }

  lemma {:induction false} ThreadRowsAppend(a: seq<Row>, b: seq<Row>, t: ThreadId)
    ensures ThreadRows(a + b, t) == ThreadRows(a, t) + ThreadRows(b, t)
    decreases |b|
  {
    if b == [] {
      assert a + b == a;
    } else {
      assert (a + b)[..|a + b| - 1] == a + b[..|b| - 1];
      ThreadRowsAppend(a, b[..|b| - 1], t);
    }
  }

  /** Numbered first, first+1, ... without a gap. */
  ghost predicate Numbered(rows: seq<Row>, first: nat) {
    forall k :: 0 <= k < |rows| ==> rows[k].seq_ == first + k
  }

  /** Committed messages of t are 1..n, and the counter, if there is one, stands at n+1. */
  ghost predicate CommittedOk(db: Db, t: ThreadId) {
    var mine := ThreadRows(db.rows, t);
    Numbered(mine, 1) && if t in db.counters then db.counters[t] == |mine| + 1 else mine == []
  }

  /** The counter version a transaction holds for t counts the committed and its own messages. */
  ghost predicate TxnOk(db: Db, x: Txn, t: ThreadId) {
    var n, own := |ThreadRows(db.rows, t)|, ThreadRows(x.rows, t);
    && Numbered(own, n + 1)
    && (t !in x.counters ==> own == [])
    && (t in x.counters ==>
          x.counters[t] == n + |own| + 1 + if x.at.Bumped? && x.at.t == t then 1 else 0)
    && ((x.at.Locked? || x.at.Bumped?) && x.at.t == t ==> t in x.counters && x.at.n == n + |own| + 1)
    && (x.at.Ensured? && x.at.t == t ==> t in db.counters || t in x.counters)
  }

  ghost predicate Exclusive(db: Db) {
    forall i, j, t :: 0 <= i < |db.txns| && 0 <= j < |db.txns| && i != j && t in db.txns[i].counters ==>
                        t !in db.txns[j].counters
  }

  ghost predicate NoClashes(rows: seq<Row>) {
    forall a, b :: 0 <= a < b < |rows| ==> !Clash(rows[a], rows[b])
  }

  ghost predicate Inv(db: Db) {
    && (forall t :: CommittedOk(db, t))
    && (forall i, t :: 0 <= i < |db.txns| ==> TxnOk(db, db.txns[i], t))
    && Exclusive(db)
    && NoClashes(db.rows)
    && (forall i :: 0 <= i < |db.txns| ==> NoClashes(db.rows + db.txns[i].rows))
  }

  /** Changing one transaction only. */
  lemma OneTxn(db: Db, i: nat, x: Txn)
    requires Inv(db) && i < |db.txns|
    requires forall t :: TxnOk(db, x, t)
    requires forall t <- x.counters :: t in db.txns[i].counters || !LockedByOther(db, i, t)
    requires NoClashes(db.rows + x.rows)
    ensures Inv(SetTxn(db, i, x))
  {
    var db' := SetTxn(db, i, x);
    forall t
      ensures CommittedOk(db', t)
    {
      assert CommittedOk(db, t);
    }
    forall j, t | 0 <= j < |db'.txns|
      ensures TxnOk(db', db'.txns[j], t)
    {
      assert j != i ==> TxnOk(db, db.txns[j], t);
      assert TxnOk(db, x, t);
    }
  }

  lemma EmptyTxnOk(db: Db)
    requires Inv(db)
    ensures (forall t :: TxnOk(db, NO_TXN, t)) && NoClashes(db.rows + NO_TXN.rows)
  {
    assert db.rows + [] == db.rows;
  }

  lemma EnsureStep(db: Db, e: Event)
    requires Inv(db) && e.EnsureCounter?
    ensures Inv(Step(db, e))
  {
    var db' := Step(db, e);
    if e.i < |db.txns| && db' != db {
      var x := db'.txns[e.i];
      forall t
        ensures TxnOk(db, x, t)
      {
        assert TxnOk(db, db.txns[e.i], t) && CommittedOk(db, t);
      }
      OneTxn(db, e.i, x);
    }
  }

  lemma LockStep(db: Db, e: Event)
    requires Inv(db) && e.LockCounter?
    ensures Inv(Step(db, e))
  {
    var db' := Step(db, e);
    if e.i < |db.txns| && db' != db {
      var x := db'.txns[e.i];
      forall t
        ensures TxnOk(db, x, t)
      {
        assert TxnOk(db, db.txns[e.i], t) && CommittedOk(db, t);
      }
      OneTxn(db, e.i, x);
    }
  }

  lemma WriteStep(db: Db, e: Event)
    requires Inv(db) && e.WriteCounter?
    ensures Inv(Step(db, e))
  {
    var db' := Step(db, e);
    if e.i < |db.txns| && db' != db {
      var x := db'.txns[e.i];
      assert TxnOk(db, db.txns[e.i], x.at.t);
      forall t
        ensures TxnOk(db, x, t)
      {
        assert TxnOk(db, db.txns[e.i], t);
      }
      OneTxn(db, e.i, x);
    }
  }

  lemma NoClashesSnoc(rows: seq<Row>, r: Row)
    requires NoClashes(rows) && !Duplicate(rows, r)
    ensures NoClashes(rows + [r])
  {
  }

  lemma InsertStep(db: Db, e: Event)
    requires Inv(db) && e.InsertMessage?
    ensures Inv(Step(db, e))
  {
    var db' := Step(db, e);
    if e.i < |db.txns| && db.txns[e.i].at.Bumped? {
      var old_, x := db.txns[e.i], db'.txns[e.i];
      var row := Row(old_.at.t, old_.at.n, old_.at.id, old_.at.content);
      if Duplicate(db.rows + old_.rows, row) {
        EmptyTxnOk(db);
      } else {
        assert TxnOk(db, old_, row.thread);
        forall t
          ensures TxnOk(db, x, t)
        {
          assert TxnOk(db, old_, t);
          ThreadRowsAppend(old_.rows, [row], t);
          assert [row][..0] == [];
        }
        NoClashesSnoc(db.rows + old_.rows, row);
        assert db.rows + old_.rows + [row] == db.rows + x.rows;
      }
      OneTxn(db, e.i, x);
    }
  }

  lemma CommitCommitted(db: Db, i: nat, t: ThreadId)
    requires Inv(db) && i < |db.txns| && db.txns[i].at.Ready?
    ensures CommittedOk(Step(db, Commit(i)), t)
    ensures t !in db.txns[i].counters ==>
              ThreadRows(Step(db, Commit(i)).rows, t) == ThreadRows(db.rows, t)
  {
    var x := db.txns[i];
    assert CommittedOk(db, t) && TxnOk(db, x, t);
    ThreadRowsAppend(db.rows, x.rows, t);
  }

  lemma {:induction false} RowsAreHeld(rows: seq<Row>, k: nat)
    requires k < |rows|
    ensures ThreadRows(rows, rows[k].thread) != []
    decreases |rows|
  {
    if k < |rows| - 1 {
      RowsAreHeld(rows[..|rows| - 1], k);
    }
  }

  ghost predicate NoClashBetween(a: seq<Row>, b: seq<Row>) {
    forall i, j :: 0 <= i < |a| && 0 <= j < |b| ==> !Clash(a[i], b[j])
  }

  lemma NoClashesJoin(a: seq<Row>, b: seq<Row>)
    ensures NoClashes(a + b) <==> NoClashes(a) && NoClashes(b) && NoClashBetween(a, b)
  {
    var all := a + b;
    assert forall k :: 0 <= k < |a| ==> all[k] == a[k];
    assert forall k :: 0 <= k < |b| ==> all[|a| + k] == b[k];
  }

  /** Open transactions hold different threads. */
  lemma OpenRowsDiffer(db: Db, i: nat, j: nat)
    requires Inv(db) && i < |db.txns| && j < |db.txns| && i != j
    ensures NoClashBetween(db.txns[i].rows, db.txns[j].rows)
  {
    var x, y := db.txns[i], db.txns[j];
    forall a, b | 0 <= a < |x.rows| && 0 <= b < |y.rows|
      ensures !Clash(x.rows[a], y.rows[b])
    {
      RowsAreHeld(x.rows, a);
      RowsAreHeld(y.rows, b);
      assert TxnOk(db, x, x.rows[a].thread) && TxnOk(db, y, y.rows[b].thread);
    }
  }

  lemma CommitNoClashes(db: Db, i: nat, j: nat)
    requires Inv(db) && i < |db.txns| && j < |db.txns| && i != j
    ensures NoClashes((db.rows + db.txns[i].rows) + db.txns[j].rows)
  {
    var x, y := db.txns[i].rows, db.txns[j].rows;
    OpenRowsDiffer(db, i, j);
    NoClashesJoin(db.rows, x);
    NoClashesJoin(db.rows, y);
    BetweenJoin(db.rows, x, y);
    NoClashesJoin(db.rows + x, y);
  }

  lemma BetweenJoin(a: seq<Row>, b: seq<Row>, c: seq<Row>)
    requires NoClashBetween(a, c) && NoClashBetween(b, c)
    ensures NoClashBetween(a + b, c)
  {
  }

  lemma CommitStep(db: Db, e: Event)
    requires Inv(db) && e.Commit?
    ensures Inv(Step(db, e))
  {
    if e.i < |db.txns| && db.txns[e.i].at.Ready? {
      var db' := Step(db, e);
      forall t
        ensures CommittedOk(db', t)
      {
        CommitCommitted(db, e.i, t);
      }
      forall j, t | 0 <= j < |db'.txns|
        ensures TxnOk(db', db'.txns[j], t)
      {
        if j != e.i {
          assert TxnOk(db, db.txns[j], t);
          CommitCommitted(db, e.i, t);
        }
      }
      forall j | 0 <= j < |db'.txns|
        ensures NoClashes(db'.rows + db'.txns[j].rows)
      {
        if j != e.i {
          CommitNoClashes(db, e.i, j);
        } else {
          assert db'.rows + [] == db'.rows;
        }
      }
    }
  }

  lemma InvStep(db: Db, e: Event)
    requires Inv(db)
    ensures Inv(Step(db, e))
  {
    match e
    case EnsureCounter(_, _, _, _) => EnsureStep(db, e);
    case LockCounter(_) => LockStep(db, e);
    case WriteCounter(_) => WriteStep(db, e);
    case InsertMessage(_) => InsertStep(db, e);
    case Commit(_) => CommitStep(db, e);
    case Abort(i) =>
      if i < |db.txns| {
        EmptyTxnOk(db);
        OneTxn(db, i, NO_TXN);
      }
  }

  lemma {:induction false} InvRun(db: Db, es: seq<Event>)
    requires Inv(db)
    ensures Inv(Run(db, es))
    decreases |es|
  {
    if es != [] {
      InvStep(db, es[0]);
      InvRun(Step(db, es[0]), es[1..]);
    }
  }

  /** Gapless allocation: under any interleaving of transactions with lock waits, commits and aborts, the
      committed messages of every thread are numbered 1..n in the order they committed, so every snapshot sees an
      initial segment; and no client message id is ever committed twice in a thread. */
  lemma GaplessAllocation(connections: nat, es: seq<Event>, t: ThreadId)
    ensures var rows := Run(Start(connections), es).rows;
            && Numbered(ThreadRows(rows, t), 1)
            && forall a, b :: 0 <= a < b < |rows| && rows[a].thread == rows[b].thread && rows[a].clientId.Some? ==>
                                rows[a].clientId != rows[b].clientId
  {
    assert [] + NO_TXN.rows == [];
    InvRun(Start(connections), es);
    assert CommittedOk(Run(Start(connections), es), t);
  }

  /** The row the FOR UPDATE statement reads always exists: the insert before it saw to that. */
  lemma CounterRowExists(connections: nat, es: seq<Event>, i: nat)
    ensures var db := Run(Start(connections), es);
            i < |db.txns| && db.txns[i].at.Ensured? ==>
              db.txns[i].at.t in db.counters || db.txns[i].at.t in db.txns[i].counters
  {
    assert [] + NO_TXN.rows == [];
    InvRun(Start(connections), es);
    var db := Run(Start(connections), es);
    if i < |db.txns| && db.txns[i].at.Ensured? {
      assert TxnOk(db, db.txns[i], db.txns[i].at.t);
    }
  }

  /** Committed messages stay, in place. */
  lemma {:induction false} CommittedGrows(db: Db, es: seq<Event>)
    ensures db.rows <= Run(db, es).rows
    decreases |es|
  {
    if es != [] {
      CommittedGrows(Step(db, es[0]), es[1..]);
    }
  }

  // ---------- What is committed is what was asked for ----------

  /** The arguments of a create() that are stored as they are. */
  datatype Ask = Ask(thread: ThreadId, clientId: Option<string>, content: string)

  function AskOf(r: Row): Ask {
    Ask(r.thread, r.clientId, r.content)
  }

  function AsksOf(rows: seq<Row>): seq<Ask> {
    if rows == [] then [] else [AskOf(rows[0])] + AsksOf(rows[1..])
  }

  lemma {:induction false} AsksOfAppend(a: seq<Row>, b: seq<Row>)
    ensures AsksOf(a + b) == AsksOf(a) + AsksOf(b)
  {
    if a == [] {
      assert a + b == b;
    } else {
      HeadAndTail(a, b);
      AsksOfAppend(a[1..], b);
      Associate([AskOf(a[0])], AsksOf(a[1..]), AsksOf(b));
    }
  }

  /** The calls begun in each open transaction: a call begins with its first statement, a transaction that is over
      has none. */
  ghost function AskedAfter(db: Db, asked: seq<seq<Ask>>, e: Event): seq<seq<Ask>>
    requires |asked| == |db.txns|
  {
    if e.i >= |db.txns| then asked
    else if e.EnsureCounter? then
      if Step(db, e) == db then asked else asked[e.i := asked[e.i] + [Ask(e.t, e.id, e.content)]]
    else if Step(db, e).txns[e.i] == NO_TXN then asked[e.i := []]
    else asked
  }

  ghost function CommittedBy(db: Db, asked: seq<seq<Ask>>, e: Event): seq<Ask>
    requires |asked| == |db.txns|
  {
    if e.Commit? && e.i < |db.txns| && db.txns[e.i].at.Ready? then asked[e.i] else []
  }

  /** The calls of the transactions that commit, in that order. */
  ghost function CommittedAsks(db: Db, asked: seq<seq<Ask>>, es: seq<Event>): seq<Ask>
    requires |asked| == |db.txns|
    decreases |es|
  {
    if es == [] then []
    else CommittedBy(db, asked, es[0]) + CommittedAsks(Step(db, es[0]), AskedAfter(db, asked, es[0]), es[1..])
  }

  /** The call a transaction is in the middle of. */
  function AskAt(at: At): seq<Ask> {
    if at.Ready? then [] else [Ask(at.t, at.id, at.content)]
  }

  predicate AnswersTo(x: Txn, asked: seq<Ask>) {
    asked == AsksOf(x.rows) + AskAt(x.at)
  }

  ghost predicate Answers(db: Db, asked: seq<seq<Ask>>) {
    && |asked| == |db.txns|
    && forall i :: 0 <= i < |asked| ==> AnswersTo(db.txns[i], asked[i])
  }

  lemma InsertAnswers(db: Db, asked: seq<seq<Ask>>, e: Event)
    requires Answers(db, asked) && e.i < |db.txns| && e.InsertMessage?
    ensures AnswersTo(Step(db, e).txns[e.i], AskedAfter(db, asked, e)[e.i])
  {
    var x, x' := db.txns[e.i], Step(db, e).txns[e.i];
    assert AnswersTo(x, asked[e.i]);
    if x.at.Bumped? && x' != NO_TXN {
      var row := Row(x.at.t, x.at.n, x.at.id, x.at.content);
      assert x' == x.(rows := x.rows + [row], at := Ready);
      AsksOfAppend(x.rows, [row]);
      assert [row][1..] == [];
      assert AsksOf([row]) == AskAt(x.at);
      assert AsksOf(x'.rows) + [] == AsksOf(x'.rows);
    }
  }

  lemma AnswersStatement(db: Db, asked: seq<seq<Ask>>, e: Event)
    requires Answers(db, asked) && e.i < |db.txns| && !e.InsertMessage?
    ensures AnswersTo(Step(db, e).txns[e.i], AskedAfter(db, asked, e)[e.i])
  {
    var x := db.txns[e.i];
    assert AnswersTo(x, asked[e.i]);
    assert AsksOf(x.rows) + [] == AsksOf(x.rows);
  }

  lemma AnswersStep(db: Db, asked: seq<seq<Ask>>, e: Event)
    requires Answers(db, asked)
    ensures Answers(Step(db, e), AskedAfter(db, asked, e))
  {
    if e.i < |db.txns| {
      OthersKeep(db, asked, e);
      if e.InsertMessage? {
        InsertAnswers(db, asked, e);
      } else {
        AnswersStatement(db, asked, e);
      }
    }
  }

  lemma OthersKeep(db: Db, asked: seq<seq<Ask>>, e: Event)
    requires |asked| == |db.txns|
    ensures |Step(db, e).txns| == |AskedAfter(db, asked, e)| == |db.txns|
    ensures forall j :: 0 <= j < |db.txns| && j != e.i ==>
                          Step(db, e).txns[j] == db.txns[j] && AskedAfter(db, asked, e)[j] == asked[j]
  {
  }

  lemma CommitAnswers(db: Db, asked: seq<seq<Ask>>, e: Event)
    requires Answers(db, asked)
    ensures AsksOf(Step(db, e).rows) == AsksOf(db.rows) + CommittedBy(db, asked, e)
  {
    if e.Commit? && e.i < |db.txns| && db.txns[e.i].at.Ready? {
      var x := db.txns[e.i];
      AsksOfAppend(db.rows, x.rows);
      assert AnswersTo(x, asked[e.i]);
      assert AsksOf(x.rows) + [] == AsksOf(x.rows);
    } else {
      assert Step(db, e).rows == db.rows;
      assert AsksOf(db.rows) + [] == AsksOf(db.rows);
    }
  }

  lemma {:induction false} CommittedAnswers(db: Db, asked: seq<seq<Ask>>, es: seq<Event>)
    requires Answers(db, asked)
    ensures AsksOf(Run(db, es).rows) == AsksOf(db.rows) + CommittedAsks(db, asked, es)
    decreases |es|
  {
    if es != [] {
      var db', asked' := Step(db, es[0]), AskedAfter(db, asked, es[0]);
      AnswersStep(db, asked, es[0]);
      CommitAnswers(db, asked, es[0]);
      CommittedAnswers(db', asked', es[1..]);
      Associate(AsksOf(db.rows), CommittedBy(db, asked, es[0]), CommittedAsks(db', asked', es[1..]));
    }
  }

  /** In every run the committed messages carry the thread, client message id and content of the create() calls whose
      transactions committed, each once, in the order of the commits. */
  lemma CommittedAsAsked(connections: nat, es: seq<Event>)
    ensures AsksOf(Run(Start(connections), es).rows)
         == CommittedAsks(Start(connections), seq(connections, _ => []), es)
  {
    var asked := seq(connections, _ => []);
    assert Answers(Start(connections), asked);
    CommittedAnswers(Start(connections), asked, es);
  }

  lemma RunCons(db: Db, e: Event, es: seq<Event>)
    ensures Run(db, [e] + es) == Run(Step(db, e), es)
  {
    assert ([e] + es)[1..] == es;
  }

  /** The statements of one persist(), in order. */
  function PersistStatements(i: nat, t: ThreadId, id: Option<string>, content: string): seq<Event> {
    [EnsureCounter(i, t, id, content)] + ([LockCounter(i)] + ([WriteCounter(i)] + ([InsertMessage(i)] +
    ([Commit(i)] + []))))
  }

  ghost function CounterWritten(db: Db, i: nat, t: ThreadId, id: Option<string>, content: string): Db {
    Step(Step(Step(db, EnsureCounter(i, t, id, content)), LockCounter(i)), WriteCounter(i))
  }

  lemma SoloCounter(db: Db, i: nat, t: ThreadId, id: Option<string>, content: string)
    requires Inv(db) && i < |db.txns| && db.txns[i] == NO_TXN && !LockedByOther(db, i, t)
    ensures var n := |ThreadRows(db.rows, t)| + 1;
            CounterWritten(db, i, t, id, content) ==
            SetTxn(db, i, Txn(map[t := n + 1], [], Bumped(t, id, content, n)))
  {
    var n := |ThreadRows(db.rows, t)| + 1;
    var own := if t in db.counters then map[] else map[t := 1];
    var db1 := Step(db, EnsureCounter(i, t, id, content));
    var db2 := Step(db1, LockCounter(i));
    assert CommittedOk(db, t);
    assert db1 == SetTxn(db, i, Txn(own, [], Ensured(t, id, content)));
    assert !LockedByOther(db1, i, t);
    assert db2 == SetTxn(db1, i, Txn(map[t := n], [], Locked(t, id, content, n)));
    assert map[t := n][t := n + 1] == map[t := n + 1];
  }

  /** The statements of one persist(), not interrupted, among any other open transactions, do what Persist does: they
      commit the thread's next number with the client message id and the content given, or, when the id is taken,
      nothing. */
  lemma SoloPersist(db: Db, i: nat, t: ThreadId, id: Option<string>, content: string)
    requires Inv(db) && i < |db.txns| && db.txns[i] == NO_TXN && !LockedByOther(db, i, t)
    ensures var candidate := Row(t, |ThreadRows(db.rows, t)| + 1, id, content);
            Run(db, PersistStatements(i, t, id, content)) ==
            if Taken(db.rows, t, id) then db
            else Db(db.counters[t := candidate.seq_ + 1], db.rows + [candidate], db.txns)
  {
    DuplicateIsTaken(db.rows, Row(t, |ThreadRows(db.rows, t)| + 1, id, content));
    var db1 := Step(db, EnsureCounter(i, t, id, content));
    var db2 := Step(db1, LockCounter(i));
    var db3 := Step(db2, WriteCounter(i));
    var db4 := Step(db3, InsertMessage(i));
    RunCons(db, EnsureCounter(i, t, id, content),
            [LockCounter(i)] + ([WriteCounter(i)] + ([InsertMessage(i)] + ([Commit(i)] + []))));
    RunCons(db1, LockCounter(i), [WriteCounter(i)] + ([InsertMessage(i)] + ([Commit(i)] + [])));
    RunCons(db2, WriteCounter(i), [InsertMessage(i)] + ([Commit(i)] + []));
    RunCons(db3, InsertMessage(i), [Commit(i)] + []);
    RunCons(db4, Commit(i), []);
    SoloCounter(db, i, t, id, content);
    SoloInsert(db, i, t, id, content);
  }

  lemma SoloInsert(db: Db, i: nat, t: ThreadId, id: Option<string>, content: string)
    requires i < |db.txns| && db.txns[i] == NO_TXN
    ensures var candidate := Row(t, |ThreadRows(db.rows, t)| + 1, id, content);
            var n := candidate.seq_;
            var bumped := SetTxn(db, i, Txn(map[t := n + 1], [], Bumped(t, id, content, n)));
            Step(Step(bumped, InsertMessage(i)), Commit(i)) ==
            if Duplicate(db.rows, candidate) then db
            else Db(db.counters[t := n + 1], db.rows + [candidate], db.txns)
  {
    var n := |ThreadRows(db.rows, t)| + 1;
    var candidate := Row(t, n, id, content);
    var bumped := SetTxn(db, i, Txn(map[t := n + 1], [], Bumped(t, id, content, n)));
    var inserted := Step(bumped, InsertMessage(i));
    assert bumped.rows + bumped.txns[i].rows == db.rows && [] + [candidate] == [candidate];
    assert db.txns[i := NO_TXN] == db.txns;
    if Duplicate(db.rows, candidate) {
      assert inserted == db;
      assert db.counters + map[] == db.counters;
    } else {
      assert inserted == SetTxn(db, i, Txn(map[t := n + 1], [candidate], Ready));
      assert db.counters + map[t := n + 1] == db.counters[t := n + 1];
    }
  }

  /** An abort leaves nothing behind: a persist() after it commits exactly its own message, with the number that an
      aborted call may have taken before. */
  lemma PersistAfterAbort(db: Db, i: nat, t: ThreadId, id: Option<string>, content: string)
    requires Inv(db) && i < |db.txns| && !LockedByOther(db, i, t)
    ensures var candidate := Row(t, |ThreadRows(db.rows, t)| + 1, id, content);
            var after := Run(db, [Abort(i)] + PersistStatements(i, t, id, content));
            && after.txns == db.txns[i := NO_TXN]
            && after.rows == if Taken(db.rows, t, id) then db.rows else db.rows + [candidate]
  {
    var aborted := Step(db, Abort(i));
    RunCons(db, Abort(i), PersistStatements(i, t, id, content));
    InvStep(db, Abort(i));
    assert !LockedByOther(aborted, i, t);
    SoloPersist(aborted, i, t, id, content);
  }

  // ---------- The repository on a connection of its own ----------

  /** The two tables as one client sees them when nobody else is writing. */
  class MessageRepository {
    var counters: map<ThreadId, nat>
    var rows: seq<Row>

    ghost function View(): Db
      reads this
    {
      Db(counters, rows, [])
    }

    ghost predicate Valid()
      reads this
    {
      (forall t :: CommittedOk(View(), t)) && NoClashes(rows)
    }

    constructor ()
      ensures Valid() && rows == []
    {
      counters := map[];
      rows := [];
    }

    /** create() in a transaction of its own: the next number of the thread, or nothing at all when the client
        message id is taken. */
    method Persist(t: ThreadId, clientId: Option<string>, content: string) returns (row: Option<Row>)
      requires Valid()
      modifies this
      ensures Valid()
      ensures var candidate := Row(t, |ThreadRows(old(rows), t)| + 1, clientId, content);
              if Taken(old(rows), t, clientId) then row == None && rows == old(rows) && counters == old(counters)
              else row == Some(candidate) && rows == old(rows) + [candidate]
                   && counters == old(counters)[t := candidate.seq_ + 1]
    {
      var counter := if t in counters then counters[t] else 1;
      assert counter == |ThreadRows(rows, t)| + 1 by {
        assert CommittedOk(View(), t);
      }
      var candidate := Row(t, counter, clientId, content);
      DuplicateIsTaken(rows, candidate);
      if Duplicate(rows, candidate) {
        return None;
      }
      NoClashesSnoc(rows, candidate);
      ghost var before := View();
      ghost var after := Db(before.counters[t := counter + 1], before.rows + [candidate], before.txns);
      assert forall t :: CommittedOk(after, t) by {
        AppendKeepsCommitted(before, candidate);
      }
      counters := counters[t := counter + 1];
      rows := rows + [candidate];
      row := Some(candidate);
      assert View() == after;
    }
  }

  lemma AppendKeepsCommitted(db: Db, row: Row)
    requires forall t :: CommittedOk(db, t)
    requires row.seq_ == |ThreadRows(db.rows, row.thread)| + 1
    ensures var db' := Db(db.counters[row.thread := row.seq_ + 1], db.rows + [row], db.txns);
            forall t :: CommittedOk(db', t)
  {
    var db' := Db(db.counters[row.thread := row.seq_ + 1], db.rows + [row], db.txns);
    forall t
      ensures CommittedOk(db', t)
    {
      assert CommittedOk(db, t);
      ThreadRowsAppend(db.rows, [row], t);
      assert [row][..0] == [];
    }
  }
}
