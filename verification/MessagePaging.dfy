/** Reading a thread backwards by seq cursor while new messages keep arriving. */
module MessagePaging {
  import opened Collections
  import opened MessageSeq

  /** ORDER BY seq DESC */
  function InsertBySeq(rows: seq<Row>, r: Row): seq<Row> {
    if rows == [] || r.seq_ >= rows[0].seq_ then [r] + rows else [rows[0]] + InsertBySeq(rows[1..], r)
  }

  function NewestFirst(rows: seq<Row>): seq<Row> {
    if rows == [] then [] else InsertBySeq(NewestFirst(rows[..|rows| - 1]), rows[|rows| - 1])
  }

  /** WHERE seq < cursor, if there is a cursor */
  function Below(rows: seq<Row>, cursor: Option<int>): seq<Row> {
    if rows == [] then []
    else
      var last := rows[|rows| - 1];
      Below(rows[..|rows| - 1], cursor) + if cursor.None? || last.seq_ < cursor.value then [last] else []
  }

  function Limit(rows: seq<Row>, n: nat): seq<Row> {
    if |rows| <= n then rows else rows[..n]
  }

  function Page(mine: seq<Row>, cursor: Option<int>, limit: nat): seq<Row> {
    Limit(NewestFirst(Below(mine, cursor)), limit)
  }

  function ListByThread(rows: seq<Row>, t: ThreadId, cursor: Option<int>, limit: nat): seq<Row> {
    Page(ThreadRows(rows, t), cursor, limit)
  }

  /** recent(): the newest page, oldest first. */
  function Recent(rows: seq<Row>, t: ThreadId, limit: nat): seq<Row> {
    Reverse(ListByThread(rows, t, None, limit))
  }

  function Reverse(rows: seq<Row>): (out: seq<Row>)
    ensures |out| == |rows| && forall k :: 0 <= k < |rows| ==> out[k] == rows[|rows| - 1 - k]
  {
    seq(|rows|, k requires 0 <= k < |rows| => rows[|rows| - 1 - k])
  }

  // ---------- One page ----------

  lemma {:induction false} NewestFirstIsReverse(rows: seq<Row>, first: nat)
    requires Numbered(rows, first)
    ensures NewestFirst(rows) == Reverse(rows)
  {
    if rows != [] {
      var front, last := rows[..|rows| - 1], rows[|rows| - 1];
      NewestFirstIsReverse(front, first);
      assert front != [] ==> Reverse(front)[0] == rows[|rows| - 2];
      ReverseSnoc(front, last);
      assert rows == front + [last];
    }
  }

  lemma ReverseSnoc(front: seq<Row>, last: Row)
    ensures Reverse(front + [last]) == [last] + Reverse(front)
  {
  }

  lemma ReverseTwice(rows: seq<Row>)
    ensures Reverse(Reverse(rows)) == rows
  {
  }

  lemma PrefixNumbered(rows: seq<Row>, k: nat)
    requires Numbered(rows, 1) && k <= |rows|
    ensures Numbered(rows[..k], 1)
  {
  }

  lemma {:induction false} BelowIsPrefix(rows: seq<Row>, cursor: Option<int>, n: nat)
    requires Numbered(rows, 1) && n <= |rows|
    requires match cursor { case None => n == |rows|
                            case Some(c) => n == |rows| < c || (n == 0 && c <= 1) || n == c - 1 }
    ensures Below(rows, cursor) == rows[..n]
  {
    if rows != [] {
      var init := rows[..|rows| - 1];
      BelowIsPrefix(init, cursor, if n == |rows| then n - 1 else n);
      if n < |rows| {
        assert init[..n] == rows[..n];
      }
    }
  }

  /** How many messages of a thread of n lie below the cursor. */
  function Reachable(n: nat, cursor: Option<int>): nat {
    match cursor
    case None => n
    case Some(c) => if c > n then n else if c <= 1 then 0 else c - 1
  }

  function PageSize(reachable: nat, limit: nat): nat {
    if reachable < limit then reachable else limit
  }

  lemma LimitReverse(mine: seq<Row>, k: nat, limit: nat)
    requires k <= |mine|
    ensures Limit(Reverse(mine[..k]), limit) == Reverse(mine[k - PageSize(k, limit)..k])
  {
    if k > limit {
      assert forall j :: 0 <= j < limit ==> Reverse(mine[..k])[j] == mine[k - 1 - j];
    } else {
      assert mine[0..k] == mine[..k];
    }
  }

  lemma PageOf(mine: seq<Row>, cursor: Option<int>, limit: nat, k: nat)
    requires Numbered(mine, 1) && k == Reachable(|mine|, cursor)
    ensures k <= |mine| && Page(mine, cursor, limit) == Reverse(mine[k - PageSize(k, limit)..k])
  {
    assert Below(mine, cursor) == mine[..k] by {
      BelowIsPrefix(mine, cursor, k);
    }
    assert NewestFirst(mine[..k]) == Reverse(mine[..k]) by {
      PrefixNumbered(mine, k);
      NewestFirstIsReverse(mine[..k], 1);
    }
    LimitReverse(mine, k, limit);
  }

  /** A page is the newest `limit` messages below the cursor, newest first. */
  lemma PageMeaning(rows: seq<Row>, t: ThreadId, cursor: Option<int>, limit: nat)
    requires Numbered(ThreadRows(rows, t), 1)
    ensures var mine := ThreadRows(rows, t); var k := Reachable(|mine|, cursor);
            k <= |mine| && ListByThread(rows, t, cursor, limit) == Reverse(mine[k - PageSize(k, limit)..k])
  {
    PageOf(ThreadRows(rows, t), cursor, limit, Reachable(|ThreadRows(rows, t)|, cursor));
  }

  /** recent() is the last `limit` messages in conversation order. */
  lemma RecentMeaning(rows: seq<Row>, t: ThreadId, limit: nat)
    requires Numbered(ThreadRows(rows, t), 1)
    ensures var mine := ThreadRows(rows, t);
            Recent(rows, t, limit) == mine[|mine| - PageSize(|mine|, limit)..]
  {
    var mine := ThreadRows(rows, t);
    PageMeaning(rows, t, None, limit);
    ReverseTwice(mine[|mine| - PageSize(|mine|, limit)..|mine|]);
    assert mine[|mine| - PageSize(|mine|, limit)..|mine|] == mine[|mine| - PageSize(|mine|, limit)..];
  }

  // ---------- Paging through a thread ----------

  /** Page after page, each on the snapshot of its own request, going on below the last message received. */
  function Pages(snapshots: seq<seq<Row>>, t: ThreadId, cursor: Option<int>, limit: nat): seq<Row>
    decreases |snapshots|
  {
    if snapshots == [] then []
    else
      var page := ListByThread(snapshots[0], t, cursor, limit);
      if page == [] then [] else page + Pages(snapshots[1..], t, Some(page[|page| - 1].seq_), limit)
  }

  /** Committed messages only ever join behind. */
  ghost predicate Growing(snapshots: seq<seq<Row>>, t: ThreadId) {
    && (forall k :: 0 <= k < |snapshots| ==> Numbered(ThreadRows(snapshots[k], t), 1))
    && forall j, k :: 0 <= j < k < |snapshots| ==> ThreadRows(snapshots[j], t) <= ThreadRows(snapshots[k], t)
  }

  /** pages * limit, page by page. */
  function Budget(pages: nat, limit: nat): nat {
    if pages == 0 then 0 else limit + Budget(pages - 1, limit)
  }

  lemma {:induction false} BudgetIs(pages: nat, limit: nat)
    ensures Budget(pages, limit) == pages * limit
  {
    if pages > 0 {
      BudgetIs(pages - 1, limit);
    }
  }

  /** The next page from cursor c+1 on, when the first c messages are the same in every snapshot. */
  lemma NextPage(snapshot: seq<Row>, t: ThreadId, mine: seq<Row>, c: nat, limit: nat)
    requires c <= |mine| && Extends(snapshot, t, mine)
    ensures ListByThread(snapshot, t, Some(c + 1), limit) == Reverse(mine[c - PageSize(c, limit)..c])
  {
    PageMeaning(snapshot, t, Some(c + 1), limit);
    SameSlice(ThreadRows(snapshot, t), mine, c - PageSize(c, limit), c);
  }

  lemma SameSlice(all: seq<Row>, mine: seq<Row>, a: nat, b: nat)
    requires mine <= all && a <= b <= |mine|
    ensures all[a..b] == mine[a..b]
  {
  }

  lemma JoinReversed(mine: seq<Row>, a: nat, b: nat, c: nat)
    requires a <= b <= c <= |mine|
    ensures Reverse(mine[b..c]) + Reverse(mine[a..b]) == Reverse(mine[a..c])
  {
  }

  ghost predicate Extends(snapshot: seq<Row>, t: ThreadId, mine: seq<Row>) {
    mine <= ThreadRows(snapshot, t) && Numbered(ThreadRows(snapshot, t), 1)
  }

  ghost predicate AllExtend(snapshots: seq<seq<Row>>, t: ThreadId, mine: seq<Row>)
    decreases |snapshots|
  {
    snapshots == [] || (Extends(snapshots[0], t, mine) && AllExtend(snapshots[1..], t, mine))
  }

  lemma {:induction false} GrowingExtends(snapshots: seq<seq<Row>>, t: ThreadId, mine: seq<Row>)
    requires forall k :: 0 <= k < |snapshots| ==> Extends(snapshots[k], t, mine)
    ensures AllExtend(snapshots, t, mine)
    decreases |snapshots|
  {
    if snapshots != [] {
      assert forall k :: 0 <= k < |snapshots[1..]| ==> snapshots[1..][k] == snapshots[k + 1];
      GrowingExtends(snapshots[1..], t, mine);
    }
  }

  lemma {:induction false} PagesFrom(snapshots: seq<seq<Row>>, t: ThreadId, mine: seq<Row>, c: nat, limit: nat)
    requires limit > 0 && c <= |mine| && AllExtend(snapshots, t, mine) && Numbered(mine, 1)
    ensures Pages(snapshots, t, Some(c + 1), limit)
         == Reverse(mine[c - PageSize(c, Budget(|snapshots|, limit))..c])
    decreases |snapshots|
  {
    if snapshots == [] || c == 0 {
      NoMorePages(snapshots, t, mine, c, limit);
    } else {
      var rest, later := c - PageSize(c, limit), Budget(|snapshots| - 1, limit);
      ghost var last := Reverse(mine[rest - PageSize(rest, later)..rest]);
      assert Pages(snapshots[1..], t, Some(rest + 1), limit) == last by {
        PagesFrom(snapshots[1..], t, mine, rest, limit);
      }
      assert Pages(snapshots, t, Some(c + 1), limit) == Reverse(mine[rest..c]) + last by {
        NextPage(snapshots[0], t, mine, c, limit);
        PagesCons(snapshots, t, mine, c, limit);
      }
      assert Reverse(mine[rest..c]) + last == Reverse(mine[c - PageSize(c, limit + later)..c]) by {
        JoinPages(mine, c, limit, later);
      }
    }
  }

  lemma NoMorePages(snapshots: seq<seq<Row>>, t: ThreadId, mine: seq<Row>, c: nat, limit: nat)
    requires c <= |mine| && AllExtend(snapshots, t, mine) && (snapshots == [] || c == 0)
    ensures Pages(snapshots, t, Some(c + 1), limit) == []
    ensures PageSize(c, Budget(|snapshots|, limit)) == 0
  {
    if snapshots != [] {
      NextPage(snapshots[0], t, mine, c, limit);
    }
  }

  lemma JoinPages(mine: seq<Row>, c: nat, limit: nat, later: nat)
    requires c <= |mine|
    ensures var rest := c - PageSize(c, limit);
            (Reverse(mine[rest..c]) + Reverse(mine[rest - PageSize(rest, later)..rest])
             == Reverse(mine[c - PageSize(c, limit + later)..c]))
  {
    BudgetSplit(c, limit, later);
    var rest := c - PageSize(c, limit);
    JoinReversed(mine, rest - PageSize(rest, later), rest, c);
  }

  lemma BudgetSplit(c: nat, limit: nat, later: nat)
    ensures PageSize(c, limit + later) == PageSize(c, limit) + PageSize(c - PageSize(c, limit), later)
  {
  }

  lemma PagesCons(snapshots: seq<seq<Row>>, t: ThreadId, mine: seq<Row>, c: nat, limit: nat)
    requires snapshots != [] && limit > 0 && 0 < c <= |mine| && Numbered(mine, 1)
    requires ListByThread(snapshots[0], t, Some(c + 1), limit) == Reverse(mine[c - PageSize(c, limit)..c])
    ensures Pages(snapshots, t, Some(c + 1), limit)
         == Reverse(mine[c - PageSize(c, limit)..c]) + Pages(snapshots[1..], t, Some(c - PageSize(c, limit) + 1), limit)
  {
    var page := Reverse(mine[c - PageSize(c, limit)..c]);
    assert page[|page| - 1] == mine[c - PageSize(c, limit)];
  }

  /** Paging backwards returns each message that was committed at the first page exactly once, newest first, and
      none that arrived later, however many pages it takes and whatever commits in between. */
  lemma PagingIsExact(snapshots: seq<seq<Row>>, t: ThreadId, limit: nat)
    requires limit > 0 && snapshots != [] && Growing(snapshots, t)
    ensures var mine := ThreadRows(snapshots[0], t);
            Pages(snapshots, t, None, limit) == Reverse(mine[|mine| - PageSize(|mine|, |snapshots| * limit)..|mine|])
  {
    var mine := ThreadRows(snapshots[0], t);
    FirstPage(snapshots, t, limit);
    assert AllExtend(snapshots, t, mine) by {
      FirstIsExtended(snapshots, t);
      GrowingExtends(snapshots, t, mine);
    }
    PagesFrom(snapshots, t, mine, |mine|, limit);
    BudgetIs(|snapshots|, limit);
  }

  lemma FirstIsExtended(snapshots: seq<seq<Row>>, t: ThreadId)
    requires snapshots != [] && Growing(snapshots, t)
    ensures forall k :: 0 <= k < |snapshots| ==> Extends(snapshots[k], t, ThreadRows(snapshots[0], t))
  {
    forall k | 0 <= k < |snapshots|
      ensures Extends(snapshots[k], t, ThreadRows(snapshots[0], t))
    {
      assert k > 0 ==> ThreadRows(snapshots[0], t) <= ThreadRows(snapshots[k], t);
    }
  }

  lemma FirstPage(snapshots: seq<seq<Row>>, t: ThreadId, limit: nat)
    requires snapshots != [] && Numbered(ThreadRows(snapshots[0], t), 1)
    ensures Pages(snapshots, t, None, limit) == Pages(snapshots, t, Some(|ThreadRows(snapshots[0], t)| + 1), limit)
  {
    var n := |ThreadRows(snapshots[0], t)|;
    assert ListByThread(snapshots[0], t, None, limit) == ListByThread(snapshots[0], t, Some(n + 1), limit) by {
      PageMeaning(snapshots[0], t, None, limit);
      PageMeaning(snapshots[0], t, Some(n + 1), limit);
    }
  }

  /** Snapshots taken along one run of the database grow. */
  lemma RunsGrow(connections: nat, before: seq<Event>, after: seq<Event>, t: ThreadId)
    ensures var db := Run(Start(connections), before);
            ThreadRows(db.rows, t) <= ThreadRows(Run(db, after).rows, t)
  {
    var db := Run(Start(connections), before);
    CommittedGrows(db, after);
    var more := Run(db, after).rows[|db.rows|..];
    assert Run(db, after).rows == db.rows + more;
    ThreadRowsAppend(db.rows, more, t);
  }

  lemma {:induction false} RunJoin(db: Db, a: seq<Event>, b: seq<Event>)
    ensures Run(db, a + b) == Run(Run(db, a), b)
    decreases |a|
  {
    if a == [] {
      assert a + b == b;
    } else {
      HeadAndTail(a, b);
      RunJoin(Step(db, a[0]), a[1..], b);
    }
  }

  /** Points of a run, in time order: when each page is read. */
  ghost predicate InOrder(cuts: seq<nat>, n: nat) {
    && (forall k :: 0 <= k < |cuts| ==> cuts[k] <= n)
    && forall j, k :: 0 <= j < k < |cuts| ==> cuts[j] <= cuts[k]
  }

  /** What is committed at each of those points. */
  ghost function SnapshotsAt(connections: nat, es: seq<Event>, cuts: seq<nat>): (snapshots: seq<seq<Row>>)
    requires InOrder(cuts, |es|)
    ensures |snapshots| == |cuts|
    ensures forall k :: 0 <= k < |cuts| ==> snapshots[k] == Run(Start(connections), es[..cuts[k]]).rows
  {
    seq(|cuts|, k requires 0 <= k < |cuts| => Run(Start(connections), es[..cuts[k]]).rows)
  }

  lemma LaterIsLonger(connections: nat, es: seq<Event>, a: nat, b: nat, t: ThreadId)
    requires a <= b <= |es|
    ensures ThreadRows(Run(Start(connections), es[..a]).rows, t) <= ThreadRows(Run(Start(connections), es[..b]).rows, t)
  {
    RunsGrow(connections, es[..a], es[a..b], t);
    RunJoin(Start(connections), es[..a], es[a..b]);
    JoinSlices(es, 0, a, b);
    assert es[..a] == es[0..a] && es[..b] == es[0..b];
  }

  lemma RunsAreGrowing(connections: nat, es: seq<Event>, cuts: seq<nat>, t: ThreadId)
    requires InOrder(cuts, |es|)
    ensures Growing(SnapshotsAt(connections, es, cuts), t)
  {
    var snapshots := SnapshotsAt(connections, es, cuts);
    forall k | 0 <= k < |snapshots|
      ensures Numbered(ThreadRows(snapshots[k], t), 1)
    {
      GaplessAllocation(connections, es[..cuts[k]], t);
    }
    forall j, k | 0 <= j < k < |snapshots|
      ensures ThreadRows(snapshots[j], t) <= ThreadRows(snapshots[k], t)
    {
      LaterIsLonger(connections, es, cuts[j], cuts[k], t);
    }
  }

  /** Paging while the database runs: whatever transactions do before, between and after the page requests, the pages
      together are the messages committed at the first request, newest first, each once, as far as the pages reach;
      all of them once the pages have room for all. */
  lemma PagingOverRuns(connections: nat, es: seq<Event>, cuts: seq<nat>, t: ThreadId, limit: nat)
    requires limit > 0 && cuts != [] && InOrder(cuts, |es|)
    ensures var mine := ThreadRows(Run(Start(connections), es[..cuts[0]]).rows, t);
            var pages := Pages(SnapshotsAt(connections, es, cuts), t, None, limit);
            && pages == Reverse(mine[|mine| - PageSize(|mine|, |cuts| * limit)..|mine|])
            && (|mine| <= |cuts| * limit ==> pages == Reverse(mine))
  {
    var snapshots := SnapshotsAt(connections, es, cuts);
    RunsAreGrowing(connections, es, cuts, t);
    PagingIsExact(snapshots, t, limit);
    var mine := ThreadRows(snapshots[0], t);
    assert mine[0..|mine|] == mine;
  }
}
