/** Usage settlement: three statements in one transaction, row locks, aborts; the admission decision; the rollup. */
module UsageLedger {
  import opened Collections

  type WorkspaceId = nat

  /** A model's place in the database's sort order of model names. */
  type Model = nat

  datatype UsageEvent = UsageEvent(
    workspace: WorkspaceId, model: Model, promptTokens: int, completionTokens: int, cost: int, occurredAt: int)

  datatype Budget = Budget(limit: nat, softPct: nat, settled: int)

  /** The committed tables; `events` in commit order. `erased` is no table: it collects, for the statements below, the
      events that deletions have removed. */
  datatype Books = Books(
    workspaces: set<WorkspaceId>, budgets: map<WorkspaceId, Budget>, total: int, events: seq<UsageEvent>,
    erased: seq<UsageEvent>)

  /** Where a record() transaction stands, with its uncommitted versions of the rows it has locked. A workspace
      without a budget row locks none: its UPDATE matches no row. */
  datatype Txn =
    | Idle
    | Begun(e: UsageEvent)
    | Inserted(e: UsageEvent)
    | Charged(e: UsageEvent, row: Option<Budget>)
    | Counted(e: UsageEvent, row: Option<Budget>, total: int)

  datatype Db = Db(books: Books, txns: seq<Txn>)

  /** One statement of one transaction, or one short transaction of another part of the program. */
  datatype Event =
    | Begin(i: nat, e: UsageEvent)
    | Insert(i: nat)
    | Charge(i: nat)
    | Count(i: nat)
    | Commit(i: nat)
    | Abort(i: nat)
    | AddWorkspace(w: WorkspaceId, budget: Option<Budget>)
    | SetLimit(w: WorkspaceId, limit: nat)
    | DeleteWorkspace(w: WorkspaceId)

  predicate HoldsBudget(x: Txn, w: WorkspaceId) {
    (x.Charged? || x.Counted?) && x.e.workspace == w && x.row.Some?
  }

  ghost predicate BudgetBusy(db: Db, w: WorkspaceId) {
    exists i :: 0 <= i < |db.txns| && HoldsBudget(db.txns[i], w)
  }

  /** An uncommitted event row refers to the workspace and keeps it from being deleted. */
  predicate Refers(x: Txn, w: WorkspaceId) {
    (x.Inserted? || x.Charged? || x.Counted?) && x.e.workspace == w
  }

  ghost predicate WorkspaceBusy(db: Db, w: WorkspaceId) {
    exists i :: 0 <= i < |db.txns| && Refers(db.txns[i], w)
  }

  ghost predicate TotalBusy(db: Db) {
    exists i :: 0 <= i < |db.txns| && db.txns[i].Counted?
  }

  function With(db: Db, i: nat, x: Txn): Db
    requires i < |db.txns|
  {
    db.(txns := db.txns[i := x])
  }

  /** The increment both UPDATE statements make. */
  function Spend(b: Budget, cost: int): Budget {
    b.(settled := b.settled + cost)
  }

  ghost function StepTxn(db: Db, e: Event): Db
    requires e.Begin? || e.Insert? || e.Charge? || e.Count? || e.Commit? || e.Abort?
    requires e.i < |db.txns|
  {
    var x := db.txns[e.i];
    match e
    case Begin(i, event) => if x.Idle? then With(db, i, Begun(event)) else db
    // the foreign key to workspaces
    case Insert(i) =>
      if !x.Begun? then db
      else if x.e.workspace !in db.books.workspaces then With(db, i, Idle)
      else With(db, i, Inserted(x.e))
    // waits for the row lock, then adds to the latest committed version; CHECK (settled_microcents >= 0)
    case Charge(i) =>
      if !x.Inserted? then db
      else if x.e.workspace !in db.books.budgets then With(db, i, Charged(x.e, None))
      else if BudgetBusy(db, x.e.workspace) then db
      else
        var row := Spend(db.books.budgets[x.e.workspace], x.e.cost);
        With(db, i, if row.settled < 0 then Idle else Charged(x.e, Some(row)))
    case Count(i) =>
      if !x.Charged? || TotalBusy(db) then db
      else
        var total := db.books.total + x.e.cost;
        With(db, i, if total < 0 then Idle else Counted(x.e, x.row, total))
    case Commit(i) =>
      if !x.Counted? then db
      else
        var b := db.books;
        var budgets := if x.row.Some? then b.budgets[x.e.workspace := x.row.value] else b.budgets;
        Db(Books(b.workspaces, budgets, x.total, b.events + [x.e], b.erased), db.txns[i := Idle])
    case Abort(i) => With(db, i, Idle)
  }

  ghost function Step(db: Db, e: Event): Db {
    match e
    // a workspace and its budget row appear together, or the budget row never does
    case AddWorkspace(w, budget) =>
      if w in db.books.workspaces then db
      else db.(books := Books(
        db.books.workspaces + {w},
        if budget.Some? then db.books.budgets[w := budget.value.(settled := 0)] else db.books.budgets,
        db.books.total, db.books.events, db.books.erased))
    case SetLimit(w, limit) =>
      if w !in db.books.budgets || BudgetBusy(db, w) then db
      else db.(books := db.books.(budgets := db.books.budgets[w := db.books.budgets[w].(limit := limit)]))
    case DeleteWorkspace(w) => if WorkspaceBusy(db, w) then db else db.(books := Deleted(db.books, w))
    case _ => if e.i < |db.txns| then StepTxn(db, e) else db
  }

  /** The events of a workspace, or of all the others. */
  function Sift(events: seq<UsageEvent>, w: WorkspaceId, own: bool): seq<UsageEvent> {
    if events == [] then []
    else
      var last := events[|events| - 1];
      Sift(events[..|events| - 1], w, own) + if (last.workspace == w) == own then [last] else []
  }

  /** The cascade takes the budget row and the events; the global counter is no child of the workspace. */
  function Deleted(b: Books, w: WorkspaceId): Books {
    Books(b.workspaces - {w}, b.budgets - {w}, b.total, Sift(b.events, w, false), b.erased + Sift(b.events, w, true))
  }

  ghost function Run(db: Db, es: seq<Event>): Db
    decreases |es|
  {
    if es == [] then db else Run(Step(db, es[0]), es[1..])
  }

  const NO_BOOKS := Books({}, map[], 0, [], [])

  function Start(connections: nat): Db {
    Db(NO_BOOKS, seq(connections, _ => Idle))
  }

  // ---------- Conservation ----------

  /** Summed cost of the events a filter keeps. */
  ghost function CostWhere(events: seq<UsageEvent>, keep: UsageEvent -> bool): int {
    if events == [] then 0
    else
      var last := events[|events| - 1];
      CostWhere(events[..|events| - 1], keep) + if keep(last) then last.cost else 0
  }

  ghost function TotalCost(events: seq<UsageEvent>): int {
    CostWhere(events, _ => true)
  }

  ghost function CostOf(events: seq<UsageEvent>, w: WorkspaceId): int {
    CostWhere(events, (e: UsageEvent) => e.workspace == w)
  }

  lemma CostSnoc(events: seq<UsageEvent>, e: UsageEvent, keep: UsageEvent -> bool)
    ensures CostWhere(events + [e], keep) == CostWhere(events, keep) + if keep(e) then e.cost else 0
  {
    assert (events + [e])[..|events|] == events;
  }

  lemma {:induction false} NoCostOutside(events: seq<UsageEvent>, w: WorkspaceId)
    requires forall e <- events :: e.workspace != w
    ensures CostOf(events, w) == 0
  {
    if events != [] {
      var front := events[..|events| - 1];
      forall e <- front
        ensures e.workspace != w
      {
        assert e in events;
      }
      assert events[|events| - 1] in events;
      NoCostOutside(front, w);
    }
  }

  ghost predicate Balanced(b: Books) {
    && b.total == TotalCost(b.events) + TotalCost(b.erased)
    && (forall w <- b.budgets :: b.budgets[w].settled == CostOf(b.events, w))
    && b.budgets.Keys <= b.workspaces
    && (forall e <- b.events :: e.workspace in b.workspaces)
  }

  /** A transaction's row versions are the committed ones plus its own cost. */
  ghost predicate TxnOk(b: Books, x: Txn) {
    && (x.Inserted? || x.Charged? || x.Counted? ==> x.e.workspace in b.workspaces)
    && (x.Charged? || x.Counted? ==>
          if x.e.workspace in b.budgets then x.row == Some(Spend(b.budgets[x.e.workspace], x.e.cost))
          else x.row == None)
    && (x.Counted? ==> x.total == b.total + x.e.cost)
  }

  ghost predicate Exclusive(txns: seq<Txn>) {
    forall i, j :: 0 <= i < |txns| && 0 <= j < |txns| && i != j ==> Compatible(txns[i], txns[j])
  }

  function WorkspaceOf(x: Txn): WorkspaceId {
    if x.Idle? then 0 else x.e.workspace
  }

  predicate Compatible(x: Txn, y: Txn) {
    !(x.Counted? && y.Counted?) && !(HoldsBudget(x, WorkspaceOf(x)) && HoldsBudget(y, WorkspaceOf(x)))
  }

  ghost predicate Inv(db: Db) {
    && Balanced(db.books)
    && (forall i :: 0 <= i < |db.txns| ==> TxnOk(db.books, db.txns[i]))
    && Exclusive(db.txns)
  }

  /** Changing one transaction only. */
  lemma OneTxn(db: Db, i: nat, x: Txn)
    requires Inv(db) && i < |db.txns| && TxnOk(db.books, x)
    requires forall j :: 0 <= j < |db.txns| && j != i ==> Compatible(x, db.txns[j]) && Compatible(db.txns[j], x)
    ensures Inv(With(db, i, x))
  {
  }

  lemma StatementStep(db: Db, e: Event)
    requires Inv(db) && (e.Begin? || e.Insert? || e.Charge? || e.Count? || e.Abort?)
    ensures Inv(Step(db, e))
  {
    var db' := Step(db, e);
    if e.i < |db.txns| && db' != db {
      var x := db'.txns[e.i];
      assert TxnOk(db.books, db.txns[e.i]);
      forall j | 0 <= j < |db.txns| && j != e.i
        ensures Compatible(x, db.txns[j]) && Compatible(db.txns[j], x)
      {
        assert Compatible(db.txns[e.i], db.txns[j]) && Compatible(db.txns[j], db.txns[e.i]);
      }
      OneTxn(db, e.i, x);
    }
  }

  /** What one recorded event does to the committed tables; nothing when a constraint refuses it. */
  function Recorded(b: Books, e: UsageEvent): Books {
    if !Recordable(b, e) then b
    else
      Books(b.workspaces,
            if e.workspace in b.budgets then
              b.budgets[e.workspace := Spend(b.budgets[e.workspace], e.cost)]
            else b.budgets,
            b.total + e.cost,
            b.events + [e],
            b.erased)
  }

  predicate Recordable(b: Books, e: UsageEvent) {
    && e.workspace in b.workspaces
    && (e.workspace in b.budgets ==> b.budgets[e.workspace].settled + e.cost >= 0)
    && b.total + e.cost >= 0
  }

  lemma RecordedBalances(b: Books, e: UsageEvent)
    requires Balanced(b)
    ensures Balanced(Recorded(b, e))
  {
    if Recordable(b, e) {
      var b' := Recorded(b, e);
      CostSnoc(b.events, e, _ => true);
      forall w <- b'.budgets
        ensures b'.budgets[w].settled == CostOf(b'.events, w)
      {
        CostSnoc(b.events, e, (e: UsageEvent) => e.workspace == w);
      }
    }
  }

  /** A transaction that commits has passed every constraint. */
  ghost predicate Checked(x: Txn) {
    && ((x.Charged? || x.Counted?) && x.row.Some? ==> x.row.value.settled >= 0)
    && (x.Counted? ==> x.total >= 0)
  }

  /** Commit refines the one-step Recorded, whatever the other transactions are doing. */
  lemma CommitRecords(db: Db, i: nat)
    requires Inv(db) && i < |db.txns| && db.txns[i].Counted? && Checked(db.txns[i])
    ensures Step(db, Commit(i)).books == Recorded(db.books, db.txns[i].e)
  {
    assert TxnOk(db.books, db.txns[i]);
  }

  /** The locks keep a commit from going under another open transaction's feet. */
  lemma OtherTxnOk(b: Books, x: Txn, y: Txn)
    requires TxnOk(b, x) && TxnOk(b, y) && x.Counted? && Recordable(b, x.e)
    requires Compatible(x, y) && Compatible(y, x)
    ensures TxnOk(Recorded(b, x.e), y)
  {
  }

  lemma IdleIsCompatible(txns: seq<Txn>, i: nat)
    requires Exclusive(txns) && i < |txns|
    ensures Exclusive(txns[i := Idle])
  {
    var txns' := txns[i := Idle];
    forall j, k | 0 <= j < |txns'| && 0 <= k < |txns'| && j != k
      ensures Compatible(txns'[j], txns'[k])
    {
      assert Compatible(txns[j], txns[k]);
    }
  }

  lemma CommitStep(db: Db, i: nat)
    requires Inv(db) && i < |db.txns| && Checked(db.txns[i])
    ensures Inv(Step(db, Commit(i)))
  {
    var x := db.txns[i];
    if x.Counted? {
      var db' := Step(db, Commit(i));
      assert db'.txns == db.txns[i := Idle];
      assert TxnOk(db.books, x);
      assert db'.books == Recorded(db.books, x.e) && Recordable(db.books, x.e) by {
        CommitRecords(db, i);
      }
      RecordedBalances(db.books, x.e);
      IdleIsCompatible(db.txns, i);
      forall j | 0 <= j < |db.txns|
        ensures TxnOk(db'.books, db'.txns[j])
      {
        if j != i {
          assert TxnOk(db.books, db.txns[j]) && Compatible(x, db.txns[j]) && Compatible(db.txns[j], x);
          OtherTxnOk(db.books, x, db.txns[j]);
        }
      }
    }
  }

  lemma {:induction false} CostAppend(a: seq<UsageEvent>, b: seq<UsageEvent>, keep: UsageEvent -> bool)
    ensures CostWhere(a + b, keep) == CostWhere(a, keep) + CostWhere(b, keep)
    decreases |b|
  {
    if b == [] {
      assert a + b == a;
    } else {
      var front, last := b[..|b| - 1], b[|b| - 1];
      CostAppend(a, front, keep);
      CostSnoc(a + front, last, keep);
      assert a + b == (a + front) + [last];
    }
  }

  lemma {:induction false} SiftCost(events: seq<UsageEvent>, w: WorkspaceId, keep: UsageEvent -> bool)
    ensures CostWhere(Sift(events, w, false), keep) + CostWhere(Sift(events, w, true), keep) == CostWhere(events, keep)
  {
    if events != [] {
      var front, last := events[..|events| - 1], events[|events| - 1];
      SiftCost(front, w, keep);
      CostSnoc(Sift(front, w, true), last, keep);
      CostSnoc(Sift(front, w, false), last, keep);
      SiftLast(front, w, last);
    }
  }

  lemma SiftLast(front: seq<UsageEvent>, w: WorkspaceId, last: UsageEvent)
    ensures var own := last.workspace == w;
            && Sift(front + [last], w, own) == Sift(front, w, own) + [last]
            && Sift(front + [last], w, !own) == Sift(front, w, !own)
  {
    assert (front + [last])[..|front|] == front;
  }

  lemma {:induction false} SiftKeeps(events: seq<UsageEvent>, w: WorkspaceId, own: bool)
    ensures forall e <- Sift(events, w, own) :: e in events && (e.workspace == w) == own
  {
    if events != [] {
      SiftKeeps(events[..|events| - 1], w, own);
    }
  }

  lemma KeptBySift(events: seq<UsageEvent>, w: WorkspaceId)
    ensures forall e <- events :: e.workspace != w ==> e in Sift(events, w, false)
  {
    SiftLosesNothing(events, w);
    SiftKeeps(events, w, true);
    forall e <- events | e.workspace != w
      ensures e in Sift(events, w, false)
    {
      assert e in multiset(events) && e !in multiset(Sift(events, w, true));
    }
  }

  lemma {:induction false} SiftLosesNothing(events: seq<UsageEvent>, w: WorkspaceId)
    ensures multiset(Sift(events, w, false)) + multiset(Sift(events, w, true)) == multiset(events)
  {
    if events != [] {
      var front, last := events[..|events| - 1], events[|events| - 1];
      assert events == front + [last];
      SiftLosesNothing(front, w);
      SiftLast(front, w, last);
    }
  }

  lemma DeletedBalances(b: Books, w: WorkspaceId)
    requires Balanced(b)
    ensures Balanced(Deleted(b, w))
  {
    var b', kept, gone := Deleted(b, w), Sift(b.events, w, false), Sift(b.events, w, true);
    SiftCost(b.events, w, _ => true);
    SiftKeeps(b.events, w, false);
    SiftKeeps(b.events, w, true);
    CostAppend(b.erased, gone, _ => true);
    forall v <- b'.budgets
      ensures b'.budgets[v].settled == CostOf(b'.events, v)
    {
      SiftCost(b.events, w, (e: UsageEvent) => e.workspace == v);
      NoCostOutside(gone, v);
    }
  }

  lemma DeletionStep(db: Db, w: WorkspaceId)
    requires Inv(db)
    ensures Inv(Step(db, DeleteWorkspace(w)))
  {
    var db' := Step(db, DeleteWorkspace(w));
    DeletedBalances(db.books, w);
    if !WorkspaceBusy(db, w) {
      forall i | 0 <= i < |db.txns|
        ensures TxnOk(db'.books, db'.txns[i])
      {
        assert TxnOk(db.books, db.txns[i]) && !Refers(db.txns[i], w);
      }
    }
  }

  lemma OtherStep(db: Db, e: Event)
    requires Inv(db) && (e.AddWorkspace? || e.SetLimit?)
    ensures Inv(Step(db, e))
  {
    var b, b' := db.books, Step(db, e).books;
    if b' != b {
      if e.AddWorkspace? && e.budget.Some? {
        NoCostOutside(b.events, e.w);
      }
      forall i | 0 <= i < |db.txns|
        ensures TxnOk(b', db.txns[i])
      {
        assert TxnOk(b, db.txns[i]);
        assert !(e.SetLimit? && HoldsBudget(db.txns[i], e.w));
      }
    }
  }

  ghost predicate Safe(db: Db) {
    Inv(db) && forall i :: 0 <= i < |db.txns| ==> Checked(db.txns[i])
  }

  lemma SafeStep(db: Db, e: Event)
    requires Safe(db)
    ensures Safe(Step(db, e))
  {
    match e
    case AddWorkspace(_, _) => OtherStep(db, e);
    case SetLimit(_, _) => OtherStep(db, e);
    case DeleteWorkspace(w) => DeletionStep(db, w);
    case Commit(i) => if i < |db.txns| { CommitStep(db, i); }
    case _ => StatementStep(db, e);
  }

  lemma {:induction false} SafeRun(db: Db, es: seq<Event>)
    requires Safe(db)
    ensures Safe(Run(db, es))
    decreases |es|
  {
    if es != [] {
      SafeStep(db, es[0]);
      SafeRun(Step(db, es[0]), es[1..]);
    }
  }

  /** Ledger conservation: after any interleaving of recording transactions with lock waits, commits, aborts, new and
      deleted workspaces and limit changes, every budget's settled amount is the sum of its own workspace's recorded
      costs, and the global counter is the sum of all recorded costs and of those that went with deleted workspaces. */
  lemma Conservation(connections: nat, es: seq<Event>)
    ensures var b := Run(Start(connections), es).books;
            && b.total == TotalCost(b.events) + TotalCost(b.erased)
            && forall w <- b.budgets :: b.budgets[w].settled == CostOf(b.events, w)
  {
    SafeRun(Start(connections), es);
  }

  /** The event that a step commits, if any. */
  ghost function CommittedBy(db: Db, e: Event): seq<UsageEvent> {
    if e.Commit? && e.i < |db.txns| && db.txns[e.i].Counted? then [db.txns[e.i].e] else []
  }

  ghost function Committed(db: Db, es: seq<Event>): seq<UsageEvent>
    decreases |es|
  {
    if es == [] then [] else CommittedBy(db, es[0]) + Committed(Step(db, es[0]), es[1..])
  }

  ghost function EverRecorded(b: Books): multiset<UsageEvent> {
    multiset(b.events) + multiset(b.erased)
  }

  lemma DeletedOnce(b: Books, w: WorkspaceId)
    ensures EverRecorded(Deleted(b, w)) == EverRecorded(b)
  {
    SiftLosesNothing(b.events, w);
    assert multiset(b.erased + Sift(b.events, w, true)) == multiset(b.erased) + multiset(Sift(b.events, w, true));
  }

  lemma EventsGrow(db: Db, e: Event)
    requires !e.DeleteWorkspace?
    ensures Step(db, e).books.events == db.books.events + CommittedBy(db, e)
    ensures Step(db, e).books.erased == db.books.erased
  {
  }

  lemma AddedOnce(b: Books, b': Books, more: seq<UsageEvent>)
    requires b'.events == b.events + more && b'.erased == b.erased
    ensures EverRecorded(b') == EverRecorded(b) + multiset(more)
  {
  }

  lemma RecordedOnce(db: Db, e: Event)
    ensures EverRecorded(Step(db, e).books) == EverRecorded(db.books) + multiset(CommittedBy(db, e))
  {
    if e.DeleteWorkspace? {
      DeletedOnce(db.books, e.w);
      assert EverRecorded(Step(db, e).books) == EverRecorded(db.books);
    } else {
      EventsGrow(db, e);
      AddedOnce(db.books, Step(db, e).books, CommittedBy(db, e));
    }
  }

  /** The recorded and the erased events are, each once, those that the run's transactions committed. */
  lemma {:induction false} NothingForgotten(db: Db, es: seq<Event>)
    ensures EverRecorded(Run(db, es).books) == EverRecorded(db.books) + multiset(Committed(db, es))
    decreases |es|
  {
    if es != [] {
      RecordedOnce(db, es[0]);
      NothingForgotten(Step(db, es[0]), es[1..]);
    }
  }

  /** A limit set while settlements are running is not lost to any of them: commits leave every limit alone. */
  lemma LimitsSurvive(connections: nat, es: seq<Event>, i: nat, w: WorkspaceId)
    ensures var db := Run(Start(connections), es);
            var b, b' := db.books, Step(db, Commit(i)).books;
            w in b.budgets ==> w in b'.budgets && b'.budgets[w].limit == b.budgets[w].limit
  {
    var db := Run(Start(connections), es);
    SafeRun(Start(connections), es);
    if i < |db.txns| {
      assert TxnOk(db.books, db.txns[i]);
    }
  }

  /** A limit that is set holds, unless the row is locked, until it is set again or the workspace deleted; the settled
      amount does not change with it. */
  lemma LimitHolds(db: Db, w: WorkspaceId, limit: nat, es: seq<Event>)
    requires Safe(db) && w in db.books.budgets && !BudgetBusy(db, w)
    requires forall e <- es :: !(e.SetLimit? && e.w == w) && !(e.DeleteWorkspace? && e.w == w)
    ensures var db1 := Step(db, SetLimit(w, limit));
            && db1.books.budgets == db.books.budgets[w := db.books.budgets[w].(limit := limit)]
            && w in Run(db1, es).books.budgets && Run(db1, es).books.budgets[w].limit == limit
  {
    var db1 := Step(db, SetLimit(w, limit));
    SafeStep(db, SetLimit(w, limit));
    LimitStays(db1, w, es);
  }

  lemma {:induction false} LimitStays(db: Db, w: WorkspaceId, es: seq<Event>)
    requires Safe(db) && w in db.books.budgets
    requires forall e <- es :: !(e.SetLimit? && e.w == w) && !(e.DeleteWorkspace? && e.w == w)
    ensures var b := Run(db, es).books; w in b.budgets && b.budgets[w].limit == db.books.budgets[w].limit
    decreases |es|
  {
    if es != [] {
      SafeStep(db, es[0]);
      LimitKept(db, w, es[0]);
      LimitStays(Step(db, es[0]), w, es[1..]);
    }
  }

  lemma LimitKept(db: Db, w: WorkspaceId, e: Event)
    requires Safe(db) && w in db.books.budgets
    requires !(e.SetLimit? && e.w == w) && !(e.DeleteWorkspace? && e.w == w)
    ensures var b := Step(db, e).books; w in b.budgets && b.budgets[w].limit == db.books.budgets[w].limit
  {
    if e.Commit? && e.i < |db.txns| {
      assert TxnOk(db.books, db.txns[e.i]);
    } else if e.AddWorkspace? {
      assert w in db.books.workspaces;
    }
  }

  // ---------- No deadlock ----------

  /** Statements a transaction still has to run. */
  function Remaining(x: Txn): nat {
    match x
    case Idle => 0
    case Begun(_) => 4
    case Inserted(_) => 3
    case Charged(_, _) => 2
    case Counted(_, _, _) => 1
  }

  function Pending(txns: seq<Txn>): nat {
    if txns == [] then 0 else Remaining(txns[0]) + Pending(txns[1..])
  }

  lemma {:induction false} PendingUpdate(txns: seq<Txn>, i: nat, x: Txn)
    requires i < |txns|
    ensures Pending(txns[i := x]) == Pending(txns) - Remaining(txns[i]) + Remaining(x)
    decreases |txns|
  {
    if i > 0 {
      assert txns[i := x][1..] == txns[1..][i - 1 := x];
      PendingUpdate(txns[1..], i - 1, x);
    }
  }

  /** The statement a transaction runs next. */
  function NextStatement(x: Txn, i: nat): Event
    requires !x.Idle?
  {
    match x
    case Begun(_) => Insert(i)
    case Inserted(_) => Charge(i)
    case Charged(_, _) => Count(i)
    case Counted(_, _, _) => Commit(i)
  }

  ghost predicate Moves(db: Db, i: nat) {
    && i < |db.txns| && !db.txns[i].Idle?
    && Pending(Step(db, NextStatement(db.txns[i], i)).txns) < Pending(db.txns)
  }

  lemma MovesUnlessWaiting(db: Db, i: nat)
    requires i < |db.txns| && !db.txns[i].Idle?
    requires db.txns[i].Inserted? ==> !BudgetBusy(db, db.txns[i].e.workspace)
    requires db.txns[i].Charged? ==> !TotalBusy(db)
    ensures Moves(db, i)
  {
    var db' := Step(db, NextStatement(db.txns[i], i));
    PendingUpdate(db.txns, i, db'.txns[i]);
    assert db'.txns == db.txns[i := db'.txns[i]];
  }

  /** No deadlock: budget row before global row, so the holder of the latter, else of a budget row, else anyone,
      can go on. */
  lemma NoDeadlock(db: Db, i: nat) returns (j: nat)
    requires i < |db.txns| && !db.txns[i].Idle?
    ensures Moves(db, j)
  {
    if TotalBusy(db) {
      j :| 0 <= j < |db.txns| && db.txns[j].Counted?;
    } else if k :| 0 <= k < |db.txns| && db.txns[k].Charged? {
      j := k;
    } else {
      j := i;
    }
    MovesUnlessWaiting(db, j);
  }

  lemma {:induction false} PendingZero(txns: seq<Txn>)
    ensures (Pending(txns) == 0) <==> (forall i :: 0 <= i < |txns| ==> txns[i].Idle?)
    decreases |txns|
  {
    if txns != [] {
      PendingZero(txns[1..]);
      if forall i :: 0 <= i < |txns| ==> txns[i].Idle? {
        forall i | 0 <= i < |txns[1..]|
          ensures txns[1..][i].Idle?
        {
          assert txns[i + 1].Idle?;
        }
      } else {
        var i :| 0 <= i < |txns| && !txns[i].Idle?;
        assert i > 0 ==> txns[1..][i - 1] == txns[i];
      }
    }
  }

  /** Whatever transactions are open, their own statements alone can finish all of them. */
  lemma {:induction false} EverybodyFinishes(db: Db) returns (es: seq<Event>)
    ensures |es| <= Pending(db.txns)
    ensures forall e <- es :: e.Insert? || e.Charge? || e.Count? || e.Commit?
    ensures forall i :: 0 <= i < |Run(db, es).txns| ==> Run(db, es).txns[i].Idle?
    decreases Pending(db.txns)
  {
    PendingZero(db.txns);
    if Pending(db.txns) == 0 {
      es := [];
    } else {
      var i :| 0 <= i < |db.txns| && !db.txns[i].Idle?;
      var j := NoDeadlock(db, i);
      var e := NextStatement(db.txns[j], j);
      var rest := EverybodyFinishes(Step(db, e));
      es := [e] + rest;
      assert es[1..] == rest;
    }
  }

  // ---------- Rollup ----------

  datatype ModelRollup = ModelRollup(
    model: Model, requestCount: nat, promptTokens: int, completionTokens: int, cost: int)

  function Empty(m: Model): ModelRollup {
    ModelRollup(m, 0, 0, 0, 0)
  }

  function Plus(r: ModelRollup, e: UsageEvent): ModelRollup {
    ModelRollup(r.model, r.requestCount + 1, r.promptTokens + e.promptTokens,
                r.completionTokens + e.completionTokens, r.cost + e.cost)
  }

  predicate Selected(e: UsageEvent, w: WorkspaceId, since: int) {
    e.workspace == w && e.occurredAt >= since
  }

  /** One event put into its model's row; rows stay ordered by model. */
  function AddTo(rows: seq<ModelRollup>, e: UsageEvent): seq<ModelRollup> {
    if rows == [] || e.model < rows[0].model then [Plus(Empty(e.model), e)] + rows
    else if e.model == rows[0].model then [Plus(rows[0], e)] + rows[1..]
    else [rows[0]] + AddTo(rows[1..], e)
  }

  /** GROUP BY model ORDER BY model. */
  function ByModel(events: seq<UsageEvent>, w: WorkspaceId, since: int): seq<ModelRollup> {
    if events == [] then []
    else
      var last, rows := events[|events| - 1], ByModel(events[..|events| - 1], w, since);
      if Selected(last, w, since) then AddTo(rows, last) else rows
  }

  function RollupCost(rows: seq<ModelRollup>): int {
    if rows == [] then 0 else rows[0].cost + RollupCost(rows[1..])
  }

  predicate Ascending(rows: seq<ModelRollup>) {
    |rows| > 1 ==> rows[0].model < rows[1].model && Ascending(rows[1..])
  }

  ghost function InPeriod(w: WorkspaceId, since: int): UsageEvent -> bool {
    (e: UsageEvent) => e.workspace == w && since <= e.occurredAt
  }

  ghost function OfModel(w: WorkspaceId, since: int, m: Model): UsageEvent -> bool {
    (e: UsageEvent) => e.workspace == w && since <= e.occurredAt && e.model == m
  }

  ghost function SumWhere(events: seq<UsageEvent>, keep: UsageEvent -> bool, value: UsageEvent -> int): int {
    if events == [] then 0
    else
      var last := events[|events| - 1];
      SumWhere(events[..|events| - 1], keep, value) + if keep(last) then value(last) else 0
  }

  ghost function CountWhere(events: seq<UsageEvent>, keep: UsageEvent -> bool): nat {
    if events == [] then 0
    else CountWhere(events[..|events| - 1], keep) + if keep(events[|events| - 1]) then 1 else 0
  }

  /** A model's number of events in the period, and their summed tokens and cost. */
  ghost function Expected(events: seq<UsageEvent>, w: WorkspaceId, since: int, m: Model): ModelRollup {
    ModelRollup(m, CountWhere(events, OfModel(w, since, m)),
                SumWhere(events, OfModel(w, since, m), (e: UsageEvent) => e.promptTokens),
                SumWhere(events, OfModel(w, since, m), (e: UsageEvent) => e.completionTokens),
                SumWhere(events, OfModel(w, since, m), (e: UsageEvent) => e.cost))
  }

  /** The row a result shows for a model; all zero when it shows none. */
  function Shown(rows: seq<ModelRollup>, m: Model): ModelRollup {
    if rows == [] then Empty(m) else if rows[0].model == m then rows[0] else Shown(rows[1..], m)
  }

  lemma {:induction false} AddToKeepsOrder(rows: seq<ModelRollup>, e: UsageEvent)
    requires Ascending(rows)
    ensures Ascending(AddTo(rows, e))
    ensures AddTo(rows, e)[0].model == if rows == [] || e.model < rows[0].model then e.model else rows[0].model
  {
    if rows != [] && e.model > rows[0].model {
      AddToKeepsOrder(rows[1..], e);
      assert AddTo(rows, e)[1..] == AddTo(rows[1..], e);
    } else if rows != [] && e.model == rows[0].model {
      assert AddTo(rows, e)[1..] == rows[1..];
    } else {
      assert AddTo(rows, e)[1..] == rows;
    }
  }

  lemma {:induction false} AddToFillsRows(rows: seq<ModelRollup>, e: UsageEvent)
    requires forall r <- rows :: r.requestCount > 0
    ensures forall r <- AddTo(rows, e) :: r.requestCount > 0
  {
    if rows != [] && e.model > rows[0].model {
      AddToFillsRows(rows[1..], e);
    }
  }

  lemma {:induction false} AddToShows(rows: seq<ModelRollup>, e: UsageEvent, m: Model)
    requires Ascending(rows)
    ensures Shown(AddTo(rows, e), m) == if m == e.model then Plus(Shown(rows, m), e) else Shown(rows, m)
  {
    if rows != [] && e.model > rows[0].model {
      AddToShows(rows[1..], e, m);
      assert AddTo(rows, e)[1..] == AddTo(rows[1..], e);
    } else if rows != [] && e.model == rows[0].model {
      assert AddTo(rows, e)[1..] == rows[1..];
    } else {
      assert AddTo(rows, e)[1..] == rows;
      NotShown(rows, e.model);
    }
  }

  lemma {:induction false} NotShown(rows: seq<ModelRollup>, m: Model)
    requires Ascending(rows) && (rows != [] ==> m < rows[0].model)
    ensures Shown(rows, m) == Empty(m)
  {
    if rows != [] {
      NotShown(rows[1..], m);
    }
  }

  lemma {:induction false} AddToCost(rows: seq<ModelRollup>, e: UsageEvent)
    ensures RollupCost(AddTo(rows, e)) == RollupCost(rows) + e.cost
  {
    if rows != [] && e.model > rows[0].model {
      AddToCost(rows[1..], e);
    }
  }

  /** The rollup: one row per model used in the period, ordered by model, holding exactly the sums of that model's
      events; no row for any other model; and the total is the cost of the period. */
  lemma {:induction false} RollupMeaning(events: seq<UsageEvent>, w: WorkspaceId, since: int)
    ensures var rows := ByModel(events, w, since);
            && Ascending(rows)
            && (forall m :: Shown(rows, m) == Expected(events, w, since, m))
            && (forall r <- rows :: r.requestCount > 0)
            && RollupCost(rows) == CostWhere(events, InPeriod(w, since))
    decreases |events|
  {
    if events != [] {
      var front, last := events[..|events| - 1], events[|events| - 1];
      RollupMeaning(front, w, since);
      var rows := ByModel(front, w, since);
      if Selected(last, w, since) {
        AddToKeepsOrder(rows, last);
        AddToFillsRows(rows, last);
        AddToCost(rows, last);
        forall m
          ensures Shown(AddTo(rows, last), m) == Expected(events, w, since, m)
        {
          AddToShows(rows, last, m);
        }
      }
    }
  }

  lemma {:induction false} SameFilter(
    events: seq<UsageEvent>, keep: UsageEvent -> bool, other: UsageEvent -> bool)
    requires forall e <- events :: keep(e) == other(e)
    ensures CostWhere(events, keep) == CostWhere(events, other)
  {
    if events != [] {
      assert events[|events| - 1] in events;
      forall e <- events[..|events| - 1]
        ensures keep(e) == other(e)
      {
        assert e in events;
      }
      SameFilter(events[..|events| - 1], keep, other);
    }
  }

  /** Three books agree: a workspace's all-time rollup is what its budget has settled, and what the global counter
      holds of it, in every committed state. */
  lemma RollupMatchesBudget(connections: nat, es: seq<Event>, w: WorkspaceId, since: int)
    ensures var b := Run(Start(connections), es).books;
            w in b.budgets && (forall e <- b.events :: e.occurredAt >= since) ==>
              RollupCost(ByModel(b.events, w, since)) == b.budgets[w].settled
  {
    var b := Run(Start(connections), es).books;
    Conservation(connections, es);
    if w in b.budgets && forall e <- b.events :: e.occurredAt >= since {
      RollupMeaning(b.events, w, since);
      SameFilter(b.events, InPeriod(w, since), (e: UsageEvent) => e.workspace == w);
    }
  }

  // ---------- Admission ----------

  datatype Decision = Decision(allowed: bool, softLimitCrossed: bool, settled: int, limit: nat)

  /** Without a budget row nothing is allowed. */
  function Decide(budget: Option<Budget>, ceiling: int): Decision {
    match budget
    case None => Decision(false, false, 0, 0)
    case Some(b) =>
      var projected := b.settled + ceiling;
      Decision(projected <= b.limit, projected > b.limit * b.softPct / 100, b.settled, b.limit)
  }

  function BudgetOf(b: Books, w: WorkspaceId): Option<Budget> {
    if w in b.budgets then Some(b.budgets[w]) else None
  }

  lemma Scale(a: nat, b: nat)
    requires b <= 100
    ensures a * b <= a * 100
  {
  }

  /** The rounded-down soft threshold loses nothing: the warning is exactly "more than softPct percent". Every
      refusal of a budgeted workspace carries the warning too. */
  lemma DecisionMeaning(budget: Option<Budget>, ceiling: int)
    requires budget.Some? ==> 0 < budget.value.softPct <= 100
    ensures var d := Decide(budget, ceiling);
            && (d.allowed <==> budget.Some? && budget.value.settled + ceiling <= budget.value.limit)
            && (d.softLimitCrossed <==>
                budget.Some? && (budget.value.settled + ceiling) * 100 > budget.value.limit * budget.value.softPct)
            && (budget.Some? && !d.allowed ==> d.softLimitCrossed)
  {
    if budget.Some? {
      var b := budget.value;
      Scale(b.limit, b.softPct);
      var product := b.limit * b.softPct;
      assert product == product / 100 * 100 + product % 100;
    }
  }

  // ---------- The adapters on a connection of their own ----------

  /** Balanced, and CHECK (soft_pct > 0 AND soft_pct <= 100). */
  ghost predicate SoundBooks(b: Books) {
    Balanced(b) && forall w <- b.budgets :: 0 < b.budgets[w].softPct <= 100
  }

  lemma RecordedIsSound(b: Books, e: UsageEvent)
    requires SoundBooks(b)
    ensures SoundBooks(Recorded(b, e))
  {
    RecordedBalances(b, e);
  }

  /** The tables as one client sees them when nobody else is writing. */
  class PostgresUsageLedger {
    var workspaces: set<WorkspaceId>
    var budgets: map<WorkspaceId, Budget>
    var total: int
    var events: seq<UsageEvent>
    ghost var erased: seq<UsageEvent>
    const globalLimit: nat

    ghost function View(): Books
      reads this
    {
      Books(workspaces, budgets, total, events, erased)
    }

    /** The counters agree with the events, and every budget passes its check. */
    ghost predicate Valid()
      reads this
    {
      SoundBooks(View())
    }

    constructor (globalLimit: nat)
      ensures Valid() && View() == NO_BOOKS && this.globalLimit == globalLimit
    {
      workspaces, budgets, total, events, erased := {}, map[], 0, [], [];
      this.globalLimit := globalLimit;
    }

    /** record(): insert, charge the budget row if there is one, count globally; all or nothing. */
    method Record(e: UsageEvent) returns (ok: bool)
      requires Valid()
      modifies this
      ensures Valid()
      ensures ok == Recordable(old(View()), e) && View() == Recorded(old(View()), e)
      ensures ok <==>
                && e.workspace in old(workspaces) && old(total) + e.cost >= 0
                && (e.workspace in old(budgets) ==> old(budgets)[e.workspace].settled + e.cost >= 0)
      ensures ok ==> events == old(events) + [e] && total == old(total) + e.cost
      ensures forall w <- budgets ::
                w in old(budgets) && budgets[w].limit == old(budgets)[w].limit
                && budgets[w].settled == old(budgets)[w].settled + if ok && w == e.workspace then e.cost else 0
      ensures !ok ==> View() == old(View())
    {
      ghost var before := View();
      var newBudgets, newTotal := budgets, total + e.cost;
      if e.workspace !in workspaces || newTotal < 0 {
        return false;
      }
      if e.workspace in budgets {
        newBudgets := budgets[e.workspace := Spend(budgets[e.workspace], e.cost)];
        if newBudgets[e.workspace].settled < 0 {
          return false;
        }
      }
      events, budgets, total := events + [e], newBudgets, newTotal;
      ok := true;
      assert View() == Recorded(before, e);
      RecordedIsSound(before, e);
    }

    /** Decides on what the workspace's events add up to, and fails closed without a budget. */
    method Check(w: WorkspaceId, ceiling: int) returns (d: Decision)
      requires Valid()
      ensures d.allowed <==> w in budgets && CostOf(events, w) + ceiling <= budgets[w].limit
      ensures d.softLimitCrossed <==>
              w in budgets && (CostOf(events, w) + ceiling) * 100 > budgets[w].limit * budgets[w].softPct
      ensures w in budgets ==> d.settled == CostOf(events, w) && d.limit == budgets[w].limit
      ensures w !in budgets ==> d.settled == 0 && d.limit == 0
    {
      DecisionMeaning(BudgetOf(View(), w), ceiling);
      if w !in budgets {
        return Decision(false, false, 0, 0);
      }
      var row := budgets[w];
      var projected := row.settled + ceiling;
      d := Decision(projected <= row.limit, projected > row.limit * row.softPct / 100, row.settled, row.limit);
    }

    /** The end of a workspace deletion. */
    method DeleteWorkspace(w: WorkspaceId)
      requires Valid()
      modifies this
      ensures Valid() && View() == Deleted(old(View()), w)
      ensures workspaces == old(workspaces) - {w} && budgets == old(budgets) - {w} && total == old(total)
      ensures forall e <- old(events) :: e in events <==> e.workspace != w
      ensures forall e <- events :: e.workspace != w
      ensures multiset(events) + multiset(erased) == multiset(old(events)) + multiset(old(erased))
    {
      DeletedBalances(View(), w);
      DeletedOnce(View(), w);
      SiftKeeps(events, w, false);
      KeptBySift(events, w);
      erased := erased + Sift(events, w, true);
      workspaces, budgets, events := workspaces - {w}, budgets - {w}, Sift(events, w, false);
    }

    /** Decides on what all events ever recorded add up to, deleted workspaces included. */
    method CheckGlobal(ceiling: int) returns (allowed: bool)
      requires Valid()
      ensures allowed <==> TotalCost(events) + TotalCost(erased) + ceiling <= globalLimit
    {
      allowed := total + ceiling <= globalLimit;
    }

    method Rollup(w: WorkspaceId, since: int) returns (rows: seq<ModelRollup>, cost: int)
      requires Valid()
      ensures rows == ByModel(events, w, since) && cost == CostWhere(events, InPeriod(w, since))
      ensures forall m :: Shown(rows, m) == Expected(events, w, since, m)
      ensures w in budgets && (forall e <- events :: e.occurredAt >= since) ==> cost == budgets[w].settled
    {
      rows := ByModel(events, w, since);
      cost := RollupCost(rows);
      RollupMeaning(events, w, since);
      if w in budgets && forall e <- events :: e.occurredAt >= since {
        SameFilter(events, InPeriod(w, since), (e: UsageEvent) => e.workspace == w);
      }
    }
  }

  lemma RunOne(db: Db, e: Event, es: seq<Event>)
    ensures Run(db, [e] + es) == Run(Step(db, e), es)
  {
    assert ([e] + es)[1..] == es;
  }

  /** The statements of one record(), in order. */
  function RecordStatements(e: UsageEvent): seq<Event> {
    [Begin(0, e)] + ([Insert(0)] + ([Charge(0)] + ([Count(0)] + ([Commit(0)] + []))))
  }

  ghost function LastThree(db: Db): Db {
    Step(Step(Step(db, Charge(0)), Count(0)), Commit(0))
  }

  lemma InsertAlone(b: Books, e: UsageEvent)
    ensures Step(Step(Db(b, [Idle]), Begin(0, e)), Insert(0)) ==
            Db(b, [if e.workspace in b.workspaces then Inserted(e) else Idle])
  {
    assert Step(Db(b, [Idle]), Begin(0, e)).txns == [Begun(e)];
  }

  lemma SettleAlone(b: Books, e: UsageEvent)
    requires e.workspace in b.workspaces
    ensures LastThree(Db(b, [Inserted(e)])) == Db(Recorded(b, e), [Idle])
  {
    var end := LastThree(Db(b, [Inserted(e)]));
    assert end.txns == [Idle];
    assert end.books == Recorded(b, e);
  }

  lemma NothingAlone(b: Books)
    ensures LastThree(Db(b, [Idle])) == Db(b, [Idle])
  {
  }

  /** The machine run by one transaction alone is the class's Record. */
  lemma SoloRecord(b: Books, e: UsageEvent)
    ensures Run(Db(b, [Idle]), RecordStatements(e)) == Db(Recorded(b, e), [Idle])
  {
    var begun := Step(Db(b, [Idle]), Begin(0, e));
    var inserted := Step(begun, Insert(0));
    var charged := Step(inserted, Charge(0));
    var counted := Step(charged, Count(0));
    RunOne(Db(b, [Idle]), Begin(0, e), [Insert(0)] + ([Charge(0)] + ([Count(0)] + ([Commit(0)] + []))));
    RunOne(begun, Insert(0), [Charge(0)] + ([Count(0)] + ([Commit(0)] + [])));
    RunOne(inserted, Charge(0), [Count(0)] + ([Commit(0)] + []));
    RunOne(charged, Count(0), [Commit(0)] + []);
    RunOne(counted, Commit(0), []);
    assert Run(Db(b, [Idle]), RecordStatements(e)) == LastThree(inserted);
    InsertAlone(b, e);
    if e.workspace in b.workspaces {
      SettleAlone(b, e);
    } else {
      NothingAlone(b);
    }
  }

  /** An abort undoes everything: a record() after it leaves exactly what it leaves alone. */
  lemma RecordAfterAbort(b: Books, x: Txn, e: UsageEvent)
    ensures Run(Db(b, [x]), [Abort(0)] + RecordStatements(e)) == Db(Recorded(b, e), [Idle])
  {
    RunOne(Db(b, [x]), Abort(0), RecordStatements(e));
    assert Step(Db(b, [x]), Abort(0)) == Db(b, [Idle]);
    SoloRecord(b, e);
  }
}
