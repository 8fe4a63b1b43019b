/** Budget admission against settlement: how far concurrent requests can overshoot a limit. */
module AdmissionControl {
  import opened Collections
  import opened UsageLedger

  /** A request on its way to its settlement: past the global check, then admitted. A retry of a message whose reply
      is missing is generated without either check; `checked` tells the two apart. */
  datatype Flight = Flight(workspace: WorkspaceId, ceiling: nat, admitted: bool, checked: bool)

  datatype State = State(books: Books, globalLimit: nat, flights: seq<Flight>)

  /** The two checks are separate reads of committed state; settling records the actual cost. */
  datatype Step =
    | CheckGlobal(w: WorkspaceId, ceiling: nat)
    | CheckWorkspace(i: nat)
    | Retry(w: WorkspaceId, ceiling: nat)
    | Settle(i: nat, e: UsageEvent)
    | Finish(i: nat)
    | ChangeLimit(w: WorkspaceId, limit: nat)

  function Without(flights: seq<Flight>, i: nat): seq<Flight>
    requires i < |flights|
  {
    flights[..i] + flights[i + 1..]
  }

  function Next(s: State, step: Step): State {
    match step
    case CheckGlobal(w, ceiling) =>
      if s.books.total + ceiling <= s.globalLimit then
        s.(flights := s.flights + [Flight(w, ceiling, false, true)])
      else s
    case CheckWorkspace(i) =>
      if i >= |s.flights| || s.flights[i].admitted then s
      else
        var f := s.flights[i];
        s.(flights := if Decide(BudgetOf(s.books, f.workspace), f.ceiling).allowed then
                        s.flights[i := f.(admitted := true)]
                      else Without(s.flights, i))
    case Retry(w, ceiling) => s.(flights := s.flights + [Flight(w, ceiling, true, false)])
    case Settle(i, e) =>
      if i >= |s.flights| || !s.flights[i].admitted then s
      else s.(books := Recorded(s.books, e), flights := Without(s.flights, i))
    // nothing to bill
    case Finish(i) => if i >= |s.flights| then s else s.(flights := Without(s.flights, i))
    case ChangeLimit(w, limit) =>
      if w !in s.books.budgets then s
      else s.(books := s.books.(budgets := s.books.budgets[w := s.books.budgets[w].(limit := limit)]))
  }

  function Run(s: State, steps: seq<Step>): State
    decreases |steps|
  {
    if steps == [] then s else Run(Next(s, steps[0]), steps[1..])
  }

  // ---------- Ceilings in flight ----------

  ghost function Count(flights: seq<Flight>, p: Flight -> bool): nat {
    if flights == [] then 0 else (if p(flights[0]) then 1 else 0) + Count(flights[1..], p)
  }

  ghost function Ceilings(flights: seq<Flight>, p: Flight -> bool): nat {
    if flights == [] then 0 else (if p(flights[0]) then flights[0].ceiling else 0) + Ceilings(flights[1..], p)
  }

  lemma {:induction false} Joined(a: seq<Flight>, b: seq<Flight>, p: Flight -> bool)
    ensures Count(a + b, p) == Count(a, p) + Count(b, p)
    ensures Ceilings(a + b, p) == Ceilings(a, p) + Ceilings(b, p)
  {
    if a == [] {
      assert a + b == b;
    } else {
      HeadAndTail(a, b);
      Joined(a[1..], b, p);
    }
  }

  lemma CutAt(flights: seq<Flight>, i: nat)
    requires i < |flights|
    ensures flights == flights[..i] + ([flights[i]] + flights[i + 1..])
  {
  }

  /** Taking one flight out. */
  lemma TakenOut(flights: seq<Flight>, i: nat, p: Flight -> bool)
    requires i < |flights|
    ensures Count(flights, p) == Count(Without(flights, i), p) + Count([flights[i]], p)
    ensures Ceilings(flights, p) == Ceilings(Without(flights, i), p) + Ceilings([flights[i]], p)
  {
    CutAt(flights, i);
    Joined(flights[..i], [flights[i]] + flights[i + 1..], p);
    Joined([flights[i]], flights[i + 1..], p);
    Joined(flights[..i], flights[i + 1..], p);
  }

  lemma Replaced(flights: seq<Flight>, i: nat, f: Flight, p: Flight -> bool)
    requires i < |flights|
    ensures Count(flights[i := f], p) == Count(Without(flights, i), p) + Count([f], p)
    ensures Ceilings(flights[i := f], p) == Ceilings(Without(flights, i), p) + Ceilings([f], p)
  {
    TakenOut(flights[i := f], i, p);
    assert Without(flights[i := f], i) == Without(flights, i);
  }

  lemma {:induction false} CeilingsBounded(flights: seq<Flight>, p: Flight -> bool, c: nat)
    requires forall f <- flights :: p(f) ==> f.ceiling <= c
    ensures Ceilings(flights, p) <= Count(flights, p) * c
  {
    if flights != [] {
      assert flights[0] in flights;
      CeilingsBounded(flights[1..], p, c);
      assert (1 + Count(flights[1..], p)) * c == c + Count(flights[1..], p) * c;
    }
  }

  lemma Monotone(a: nat, b: int, c: nat)
    requires a <= b
    ensures a * c <= b * c
  {
  }

  // ---------- The bound ----------

  /** The flights that will be billed to a workspace; those of them that passed the checks; those that did not. */
  ghost function Exposed(w: WorkspaceId): Flight -> bool {
    (f: Flight) => f.workspace == w && f.admitted
  }

  ghost function Admitted(w: WorkspaceId): Flight -> bool {
    (f: Flight) => f.workspace == w && f.admitted && f.checked
  }

  ghost function Unchecked(w: WorkspaceId): Flight -> bool {
    (f: Flight) => f.workspace == w && f.admitted && !f.checked
  }

  /** The same for the global counter: a request is open from its global check on. */
  ghost function Anyone(): Flight -> bool {
    (f: Flight) => true
  }

  ghost function AnyoneChecked(): Flight -> bool {
    (f: Flight) => f.checked
  }

  ghost function AnyoneUnchecked(): Flight -> bool {
    (f: Flight) => !f.checked
  }

  lemma {:induction false} TwoKinds(flights: seq<Flight>, w: WorkspaceId)
    ensures Ceilings(flights, Exposed(w)) == Ceilings(flights, Admitted(w)) + Ceilings(flights, Unchecked(w))
    ensures Ceilings(flights, Anyone()) == Ceilings(flights, AnyoneChecked()) + Ceilings(flights, AnyoneUnchecked())
  {
    if flights != [] {
      TwoKinds(flights[1..], w);
    }
  }

  /** A settlement bills the request's own workspace, no more than its ceiling, and is never negative. */
  predicate Honest(s: State, step: Step) {
    step.Settle? && step.i < |s.flights| ==>
      && step.e.workspace == s.flights[step.i].workspace
      && 0 <= step.e.cost <= s.flights[step.i].ceiling
  }

  ghost predicate Modest(s: State, p: Flight -> bool, c: nat) {
    forall f <- s.flights :: p(f) ==> f.ceiling <= c
  }

  function Settled(s: State, w: WorkspaceId): int {
    if w in s.books.budgets then s.books.budgets[w].settled else 0
  }

  /** u is what was let in without a check. */
  ghost predicate WorkspaceBound(s: State, w: WorkspaceId, limit: nat, k: nat, c: nat, u: nat) {
    && Settled(s, w) + Ceilings(s.flights, Exposed(w)) <= limit + (k - 1) * c + u
    && Ceilings(s.flights, Unchecked(w)) <= u
  }

  ghost predicate GlobalBound(s: State, k: nat, c: nat, u: nat) {
    && s.books.total + Ceilings(s.flights, Anyone()) <= s.globalLimit + (k - 1) * c + u
    && Ceilings(s.flights, AnyoneUnchecked()) <= u
  }

  /** Every step of the run is honest, at most k requests of a kind are open at once, and their ceilings at most c. */
  ghost predicate Bounded(s: State, steps: seq<Step>, p: Flight -> bool, k: nat, c: nat)
    decreases |steps|
  {
    && Modest(s, p, c) && Count(s.flights, p) <= k
    && (steps == [] || (Honest(s, steps[0]) && Bounded(Next(s, steps[0]), steps[1..], p, k, c)))
  }

  /** The limit never goes above this. */
  ghost predicate Limited(s: State, steps: seq<Step>, w: WorkspaceId, limit: nat) {
    && (w in s.books.budgets ==> s.books.budgets[w].limit <= limit)
    && forall step <- steps :: step.ChangeLimit? && step.w == w ==> step.limit <= limit
  }

  function RetriedBy(step: Step, w: WorkspaceId): nat {
    if step.Retry? && step.w == w then step.ceiling else 0
  }

  /** Ceilings of all the unchecked retries of a workspace; of all workspaces. */
  function Retried(steps: seq<Step>, w: WorkspaceId): nat {
    if steps == [] then 0 else RetriedBy(steps[0], w) + Retried(steps[1..], w)
  }

  function AllRetried(steps: seq<Step>): nat {
    if steps == [] then 0 else (if steps[0].Retry? then steps[0].ceiling else 0) + AllRetried(steps[1..])
  }

  lemma OthersModest(s: State, i: nat, p: Flight -> bool, c: nat)
    requires Modest(s, p, c) && i < |s.flights|
    ensures forall f <- Without(s.flights, i) :: p(f) ==> f.ceiling <= c
  {
    forall f <- Without(s.flights, i)
      ensures f in s.flights
    {
    }
  }

  /** An admission is taken under the limit, with at most k-1 others checked. */
  lemma AdmissionStep(s: State, i: nat, w: WorkspaceId, limit: nat, k: nat, c: nat, u: nat)
    requires i < |s.flights| && !s.flights[i].admitted && s.flights[i].workspace == w && s.flights[i].checked
    requires Modest(s, Admitted(w), c) && k > 0
    requires w in s.books.budgets ==> s.books.budgets[w].limit <= limit
    requires WorkspaceBound(s, w, limit, k, c, u)
    requires Count(Next(s, CheckWorkspace(i)).flights, Admitted(w)) <= k
    ensures WorkspaceBound(Next(s, CheckWorkspace(i)), w, limit, k, c, u)
  {
    var f, rest := s.flights[i], Without(s.flights, i);
    TakenOut(s.flights, i, Exposed(w));
    TakenOut(s.flights, i, Unchecked(w));
    if Decide(BudgetOf(s.books, w), f.ceiling).allowed {
      var f' := f.(admitted := true);
      Replaced(s.flights, i, f', Exposed(w));
      Replaced(s.flights, i, f', Admitted(w));
      Replaced(s.flights, i, f', Unchecked(w));
      TwoKinds(rest, w);
      OthersModest(s, i, Admitted(w), c);
      CeilingsBounded(rest, Admitted(w), c);
      Monotone(Count(rest, Admitted(w)), k - 1, c);
    }
  }

  /** A check of another workspace's request. */
  lemma OtherAdmissionStep(s: State, i: nat, w: WorkspaceId)
    requires i < |s.flights| && !s.flights[i].admitted && s.flights[i].workspace != w
    ensures var s' := Next(s, CheckWorkspace(i));
            && s'.books == s.books
            && Ceilings(s'.flights, Exposed(w)) == Ceilings(s.flights, Exposed(w))
            && Ceilings(s'.flights, Unchecked(w)) == Ceilings(s.flights, Unchecked(w))
  {
    var f' := s.flights[i].(admitted := true);
    TakenOut(s.flights, i, Exposed(w));
    TakenOut(s.flights, i, Unchecked(w));
    Replaced(s.flights, i, f', Exposed(w));
    Replaced(s.flights, i, f', Unchecked(w));
  }

  lemma SettleStep(s: State, step: Step, w: WorkspaceId)
    requires step.Settle? && Honest(s, step)
    ensures Settled(Next(s, step), w) + Ceilings(Next(s, step).flights, Exposed(w)) <=
            Settled(s, w) + Ceilings(s.flights, Exposed(w))
    ensures Next(s, step).books.total + Ceilings(Next(s, step).flights, Anyone()) <=
            s.books.total + Ceilings(s.flights, Anyone())
  {
    if step.i < |s.flights| {
      TakenOut(s.flights, step.i, Exposed(w));
      TakenOut(s.flights, step.i, Anyone());
    }
  }

  /** Taking flights out, or adding one that is not exposed, raises neither sum. */
  lemma RemovalStep(s: State, step: Step, w: WorkspaceId)
    requires step.Settle? || step.Finish?
    ensures Ceilings(Next(s, step).flights, Unchecked(w)) <= Ceilings(s.flights, Unchecked(w))
    ensures Ceilings(Next(s, step).flights, AnyoneUnchecked()) <= Ceilings(s.flights, AnyoneUnchecked())
    ensures step.Finish? ==> Ceilings(Next(s, step).flights, Exposed(w)) <= Ceilings(s.flights, Exposed(w))
    ensures step.Finish? ==> Ceilings(Next(s, step).flights, Anyone()) <= Ceilings(s.flights, Anyone())
  {
    if step.i < |s.flights| {
      TakenOut(s.flights, step.i, Unchecked(w));
      TakenOut(s.flights, step.i, AnyoneUnchecked());
      TakenOut(s.flights, step.i, Exposed(w));
      TakenOut(s.flights, step.i, Anyone());
    }
  }

  /** Only checked requests wait for their workspace check. */
  ghost predicate WaitersChecked(s: State) {
    forall f <- s.flights :: !f.admitted ==> f.checked
  }

  lemma WaitersStep(s: State, step: Step)
    requires WaitersChecked(s)
    ensures WaitersChecked(Next(s, step))
  {
    forall f <- Next(s, step).flights
      ensures !f.admitted ==> f.checked
    {
      if f !in s.flights {
        assert step.CheckGlobal? || step.Retry? || (step.CheckWorkspace? && f.admitted);
      }
    }
  }

  lemma WorkspaceStep(s: State, step: Step, w: WorkspaceId, limit: nat, k: nat, c: nat, u: nat)
    requires WaitersChecked(s) && Modest(s, Admitted(w), c) && Honest(s, step) && k > 0
    requires Limited(s, [step], w, limit)
    requires WorkspaceBound(s, w, limit, k, c, u)
    requires Count(Next(s, step).flights, Admitted(w)) <= k
    ensures WorkspaceBound(Next(s, step), w, limit, k, c, u + RetriedBy(step, w))
  {
    match step
    case CheckGlobal(v, ceiling) =>
      Joined(s.flights, [Flight(v, ceiling, false, true)], Exposed(w));
      Joined(s.flights, [Flight(v, ceiling, false, true)], Unchecked(w));
    case CheckWorkspace(i) =>
      if i < |s.flights| && !s.flights[i].admitted {
        if s.flights[i].workspace == w {
          assert s.flights[i] in s.flights;
          AdmissionStep(s, i, w, limit, k, c, u);
        } else {
          OtherAdmissionStep(s, i, w);
        }
      }
    case Retry(v, ceiling) =>
      Joined(s.flights, [Flight(v, ceiling, true, false)], Exposed(w));
      Joined(s.flights, [Flight(v, ceiling, true, false)], Unchecked(w));
    case Settle(_, _) =>
      SettleStep(s, step, w);
      RemovalStep(s, step, w);
    case Finish(_) => RemovalStep(s, step, w);
    case ChangeLimit(_, _) =>
  }

  lemma LimitedStep(s: State, steps: seq<Step>, w: WorkspaceId, limit: nat)
    requires steps != [] && Limited(s, steps, w, limit)
    ensures Limited(s, [steps[0]], w, limit) && Limited(Next(s, steps[0]), steps[1..], w, limit)
  {
    assert steps[0] in steps && forall step <- steps[1..] :: step in steps;
  }

  /** Overshoot bound: while at most k requests of a workspace that passed the checks are unsettled at any time, its
      settled spend plus every ceiling in flight stays within limit + (k-1)*c plus what unchecked retries let in, in
      every state of every run; the limit may change, up to the given one. */
  lemma {:induction false} WorkspaceOvershoot(
    s: State, steps: seq<Step>, w: WorkspaceId, limit: nat, k: nat, c: nat, u: nat)
    requires WaitersChecked(s) && Limited(s, steps, w, limit) && k > 0 && Bounded(s, steps, Admitted(w), k, c)
    requires WorkspaceBound(s, w, limit, k, c, u)
    ensures WorkspaceBound(Run(s, steps), w, limit, k, c, u + Retried(steps, w))
    decreases |steps|
  {
    if steps != [] {
      LimitedStep(s, steps, w, limit);
      WaitersStep(s, steps[0]);
      WorkspaceStep(s, steps[0], w, limit, k, c, u);
      WorkspaceOvershoot(Next(s, steps[0]), steps[1..], w, limit, k, c, u + RetriedBy(steps[0], w));
    }
  }

  lemma GlobalCheckStep(s: State, w: WorkspaceId, ceiling: nat, k: nat, c: nat, u: nat)
    requires Modest(s, AnyoneChecked(), c) && k > 0 && GlobalBound(s, k, c, u)
    requires Count(Next(s, CheckGlobal(w, ceiling)).flights, AnyoneChecked()) <= k
    ensures GlobalBound(Next(s, CheckGlobal(w, ceiling)), k, c, u)
  {
    if s.books.total + ceiling <= s.globalLimit {
      var f := Flight(w, ceiling, false, true);
      Joined(s.flights, [f], Anyone());
      Joined(s.flights, [f], AnyoneChecked());
      Joined(s.flights, [f], AnyoneUnchecked());
      TwoKinds(s.flights, w);
      CeilingsBounded(s.flights, AnyoneChecked(), c);
      Monotone(Count(s.flights, AnyoneChecked()), k - 1, c);
    }
  }

  lemma GlobalAdmissionStep(s: State, i: nat)
    requires i < |s.flights| && !s.flights[i].admitted
    ensures var s' := Next(s, CheckWorkspace(i));
            && s'.books == s.books && s'.globalLimit == s.globalLimit
            && Ceilings(s'.flights, Anyone()) <= Ceilings(s.flights, Anyone())
            && Ceilings(s'.flights, AnyoneUnchecked()) <= Ceilings(s.flights, AnyoneUnchecked())
  {
    var f' := s.flights[i].(admitted := true);
    TakenOut(s.flights, i, Anyone());
    TakenOut(s.flights, i, AnyoneUnchecked());
    Replaced(s.flights, i, f', Anyone());
    Replaced(s.flights, i, f', AnyoneUnchecked());
  }

  lemma GlobalStep(s: State, step: Step, k: nat, c: nat, u: nat)
    requires Modest(s, AnyoneChecked(), c) && Honest(s, step) && k > 0
    requires GlobalBound(s, k, c, u)
    requires Count(Next(s, step).flights, AnyoneChecked()) <= k
    ensures GlobalBound(Next(s, step), k, c, u + if step.Retry? then step.ceiling else 0)
  {
    match step
    case CheckGlobal(v, ceiling) => GlobalCheckStep(s, v, ceiling, k, c, u);
    case CheckWorkspace(i) =>
      if i < |s.flights| && !s.flights[i].admitted {
        GlobalAdmissionStep(s, i);
      }
    case Retry(v, ceiling) =>
      Joined(s.flights, [Flight(v, ceiling, true, false)], Anyone());
      Joined(s.flights, [Flight(v, ceiling, true, false)], AnyoneUnchecked());
    case Settle(_, _) =>
      SettleStep(s, step, 0);
      RemovalStep(s, step, 0);
    case Finish(_) => RemovalStep(s, step, 0);
    case ChangeLimit(_, _) =>
  }

  /** The same for the global counter, when every request counts as open from its global check on. */
  lemma {:induction false} GlobalOvershoot(s: State, steps: seq<Step>, k: nat, c: nat, u: nat)
    requires k > 0 && Bounded(s, steps, AnyoneChecked(), k, c)
    requires GlobalBound(s, k, c, u)
    ensures GlobalBound(Run(s, steps), k, c, u + AllRetried(steps)) && Run(s, steps).globalLimit == s.globalLimit
    decreases |steps|
  {
    if steps != [] {
      GlobalStep(s, steps[0], k, c, u);
      GlobalOvershoot(Next(s, steps[0]), steps[1..], k, c, u + if steps[0].Retry? then steps[0].ceiling else 0);
    }
  }

  /** From a quiet start within its limit a workspace never settles more than limit + (k-1)*c plus its unchecked
      retries. */
  lemma SettledOvershoot(s: State, steps: seq<Step>, w: WorkspaceId, limit: nat, k: nat, c: nat)
    requires Limited(s, steps, w, limit) && k > 0 && Bounded(s, steps, Admitted(w), k, c)
    requires s.flights == [] && Settled(s, w) <= limit
    ensures Settled(Run(s, steps), w) <= limit + (k - 1) * c + Retried(steps, w)
  {
    Monotone(0, k - 1, c);
    WorkspaceOvershoot(s, steps, w, limit, k, c, 0);
  }

  function FinishAll(n: nat): seq<Step> {
    if n == 0 then [] else [Finish(0)] + FinishAll(n - 1)
  }

  /** Requests that end without a bill free all their ceilings. */
  lemma {:induction false} FinishingFrees(s: State)
    ensures Run(s, FinishAll(|s.flights|)) == s.(flights := [])
    decreases |s.flights|
  {
    if s.flights != [] {
      var rest := Next(s, Finish(0));
      assert rest.flights == s.flights[1..];
      assert FinishAll(|s.flights|)[1..] == FinishAll(|rest.flights|);
      FinishingFrees(rest);
    }
  }

  // ---------- The bound is reached ----------

  lemma BoundedCons(s: State, step: Step, rest: seq<Step>, p: Flight -> bool, k: nat, c: nat)
    requires Modest(s, p, c) && Count(s.flights, p) <= k && Honest(s, step)
    requires Bounded(Next(s, step), rest, p, k, c)
    ensures Bounded(s, [step] + rest, p, k, c)
    ensures Run(s, [step] + rest) == Run(Next(s, step), rest)
  {
    assert ([step] + rest)[1..] == rest;
  }

  function Bill(cost: nat): UsageEvent {
    UsageEvent(0, 0, 0, 0, cost, 0)
  }

  /** One workspace that has spent this much so far. */
  function Spent(limit: nat, amount: nat): Books {
    Books({0}, map[0 := Budget(limit, 100, amount)], amount, [Bill(amount)], [])
  }

  predicate Billable(b: Books) {
    0 in b.workspaces && 0 in b.budgets && b.budgets[0].settled >= 0 && b.total >= 0
  }

  /** j admitted requests of workspace 0. */
  function Crowd(books: Books, globalLimit: nat, j: nat, c: nat): State {
    State(books, globalLimit, seq(j, _ => Flight(0, c, true, true)))
  }

  lemma {:induction false} CrowdCount(books: Books, globalLimit: nat, j: nat, c: nat, p: Flight -> bool)
    requires p(Flight(0, c, true, true))
    ensures Count(Crowd(books, globalLimit, j, c).flights, p) == j
    ensures Modest(Crowd(books, globalLimit, j, c), p, c)
    decreases j
  {
    if j > 0 {
      assert Crowd(books, globalLimit, j, c).flights[1..] == Crowd(books, globalLimit, j - 1, c).flights;
      CrowdCount(books, globalLimit, j - 1, c, p);
    }
  }

  function Arrivals(j: nat, k: nat, c: nat, rest: seq<Step>): seq<Step>
    requires j <= k
    decreases k - j
  {
    if j == k then rest else [CheckGlobal(0, c)] + ([CheckWorkspace(j)] + Arrivals(j + 1, k, c, rest))
  }

  lemma Arrival(books: Books, globalLimit: nat, j: nat, c: nat, p: Flight -> bool)
    requires p(Flight(0, c, true, true))
    requires books.total + c <= globalLimit && Decide(BudgetOf(books, 0), c).allowed
    ensures var s := Crowd(books, globalLimit, j, c);
            var waiting := Next(s, CheckGlobal(0, c));
            && Next(waiting, CheckWorkspace(j)) == Crowd(books, globalLimit, j + 1, c)
            && Count(waiting.flights, p) <= j + 1 && Modest(waiting, p, c)
  {
    var s := Crowd(books, globalLimit, j, c);
    var waiting := Next(s, CheckGlobal(0, c));
    assert waiting.flights == s.flights + [Flight(0, c, false, true)];
    assert waiting.flights[j := Flight(0, c, true, true)] == Crowd(books, globalLimit, j + 1, c).flights;
    Joined(s.flights, [Flight(0, c, false, true)], p);
    CrowdCount(books, globalLimit, j, c, p);
  }

  lemma {:induction false} ArrivalsRun(books: Books, globalLimit: nat, j: nat, k: nat, c: nat, rest: seq<Step>,
                                       p: Flight -> bool)
    requires books.total + c <= globalLimit && Decide(BudgetOf(books, 0), c).allowed
    requires p(Flight(0, c, true, true)) && j <= k
    requires Bounded(Crowd(books, globalLimit, k, c), rest, p, k, c)
    ensures Run(Crowd(books, globalLimit, j, c), Arrivals(j, k, c, rest)) == Run(Crowd(books, globalLimit, k, c), rest)
    ensures Bounded(Crowd(books, globalLimit, j, c), Arrivals(j, k, c, rest), p, k, c)
    decreases k - j
  {
    if j < k {
      var s := Crowd(books, globalLimit, j, c);
      CrowdCount(books, globalLimit, j, c, p);
      Arrival(books, globalLimit, j, c, p);
      ArrivalsRun(books, globalLimit, j + 1, k, c, rest, p);
      var later := Arrivals(j + 1, k, c, rest);
      BoundedCons(Next(s, CheckGlobal(0, c)), CheckWorkspace(j), later, p, k, c);
      BoundedCons(s, CheckGlobal(0, c), [CheckWorkspace(j)] + later, p, k, c);
    }
  }

  function SettleAll(n: nat, c: nat, rest: seq<Step>): seq<Step> {
    if n == 0 then rest else [Settle(0, Bill(c))] + SettleAll(n - 1, c, rest)
  }

  function Billed(b: Books, n: nat, c: nat): Books
    decreases n
  {
    if n == 0 then b else Billed(Recorded(b, Bill(c)), n - 1, c)
  }

  lemma {:induction false} BilledSpend(b: Books, n: nat, c: nat)
    requires Billable(b)
    ensures Billable(Billed(b, n, c)) && Billed(b, n, c).budgets[0].settled == b.budgets[0].settled + n * c
    ensures Billed(b, n, c).total == b.total + n * c
    decreases n
  {
    if n > 0 {
      BilledSpend(Recorded(b, Bill(c)), n - 1, c);
      assert n * c == (n - 1) * c + c;
    }
  }

  lemma {:induction false} SettleAllRun(b: Books, globalLimit: nat, n: nat, k: nat, c: nat, rest: seq<Step>,
                                        p: Flight -> bool)
    requires p(Flight(0, c, true, true)) && Billable(b) && n <= k
    requires Bounded(Crowd(Billed(b, n, c), globalLimit, 0, c), rest, p, k, c)
    ensures Bounded(Crowd(b, globalLimit, n, c), SettleAll(n, c, rest), p, k, c)
    ensures Run(Crowd(b, globalLimit, n, c), SettleAll(n, c, rest))
         == Run(Crowd(Billed(b, n, c), globalLimit, 0, c), rest)
    decreases n
  {
    if n > 0 {
      var s := Crowd(b, globalLimit, n, c);
      CrowdCount(b, globalLimit, n, c, p);
      assert Next(s, Settle(0, Bill(c))).flights == Crowd(b, globalLimit, n - 1, c).flights;
      SettleAllRun(Recorded(b, Bill(c)), globalLimit, n - 1, k, c, rest, p);
      BoundedCons(s, Settle(0, Bill(c)), SettleAll(n - 1, c, rest), p, k, c);
    }
  }

  lemma RetryRun(b: Books, globalLimit: nat, u: nat, k: nat, c: nat, p: Flight -> bool)
    requires Billable(b) && !p(Flight(0, u, true, false))
    ensures var s := Crowd(b, globalLimit, 0, c);
            var steps := [Retry(0, u)] + ([Settle(0, Bill(u))] + []);
            Bounded(s, steps, p, k, c) && Run(s, steps).books == Recorded(b, Bill(u))
  {
    var s := Crowd(b, globalLimit, 0, c);
    var retried := Next(s, Retry(0, u));
    assert s.flights == [] && retried.flights == [Flight(0, u, true, false)];
    assert [Flight(0, u, true, false)][1..] == [];
    var done := Next(retried, Settle(0, Bill(u)));
    assert done.flights == [];
    BoundedCons(retried, Settle(0, Bill(u)), [], p, k, c);
    BoundedCons(s, Retry(0, u), [Settle(0, Bill(u))] + [], p, k, c);
  }

  /** k requests that all read the spend before any of them settles, and one retry. */
  function WorstCase(k: nat, c: nat, u: nat): seq<Step> {
    Arrivals(0, k, c, SettleAll(k, c, [Retry(0, u)] + ([Settle(0, Bill(u))] + [])))
  }

  lemma {:induction false} RetriedInArrivals(j: nat, k: nat, c: nat, rest: seq<Step>)
    requires j <= k
    ensures Retried(Arrivals(j, k, c, rest), 0) == Retried(rest, 0)
    ensures AllRetried(Arrivals(j, k, c, rest)) == AllRetried(rest)
    decreases k - j
  {
    if j < k {
      RetriedInArrivals(j + 1, k, c, rest);
      var later := Arrivals(j + 1, k, c, rest);
      assert ([CheckGlobal(0, c)] + ([CheckWorkspace(j)] + later))[1..] == [CheckWorkspace(j)] + later;
      assert ([CheckWorkspace(j)] + later)[1..] == later;
    }
  }

  lemma {:induction false} RetriedInSettles(n: nat, c: nat, rest: seq<Step>)
    ensures Retried(SettleAll(n, c, rest), 0) == Retried(rest, 0)
    ensures AllRetried(SettleAll(n, c, rest)) == AllRetried(rest)
  {
    if n > 0 {
      RetriedInSettles(n - 1, c, rest);
      assert ([Settle(0, Bill(c))] + SettleAll(n - 1, c, rest))[1..] == SettleAll(n - 1, c, rest);
    }
  }

  lemma RetriedInWorstCase(k: nat, c: nat, u: nat)
    ensures Retried(WorstCase(k, c, u), 0) == u && AllRetried(WorstCase(k, c, u)) == u
  {
    var last := [Retry(0, u)] + ([Settle(0, Bill(u))] + []);
    RetriedInArrivals(0, k, c, SettleAll(k, c, last));
    RetriedInSettles(k, c, last);
    assert last[1..] == [Settle(0, Bill(u))] && last[1..][1..] == [];
    assert Retried(last[1..], 0) == 0 && AllRetried(last[1..]) == 0;
    assert Retried(last, 0) == RetriedBy(last[0], 0);
  }

  lemma WorstCaseRun(limit: nat, k: nat, c: nat, u: nat, p: Flight -> bool)
    requires k > 0 && c <= limit && p(Flight(0, c, true, true)) && !p(Flight(0, u, true, false))
    ensures var s, end := Crowd(Spent(limit, limit - c), limit, 0, c),
                          Run(Crowd(Spent(limit, limit - c), limit, 0, c), WorstCase(k, c, u));
            && s.flights == [] && Bounded(s, WorstCase(k, c, u), p, k, c)
            && Settled(end, 0) == limit + (k - 1) * c + u && end.books.total == limit + (k - 1) * c + u
  {
    var b, last := Spent(limit, limit - c), [Retry(0, u)] + ([Settle(0, Bill(u))] + []);
    assert Crowd(b, limit, 0, c).flights == [];
    BilledSpend(b, k, c);
    RetryRun(Billed(b, k, c), limit, u, k, c, p);
    SettleAllRun(b, limit, k, k, c, last, p);
    ArrivalsRun(b, limit, 0, k, c, SettleAll(k, c, last), p);
    assert k * c == (k - 1) * c + c;
  }

  /** The bound is tight, in settled money, for every limit, k, retry cost u, and every c up to the limit (a larger
      ceiling is never admitted): some bounded run from within the limit settles limit + (k-1)*c + u. */
  lemma OvershootIsTight(limit: nat, k: nat, c: nat, u: nat)
    requires k > 0 && c <= limit
    ensures var s, steps := Crowd(Spent(limit, limit - c), limit, 0, c), WorstCase(k, c, u);
            && Balanced(s.books) && s.flights == [] && Settled(s, 0) <= limit
            && Bounded(s, steps, Admitted(0), k, c) && Retried(steps, 0) == u
            && Settled(Run(s, steps), 0) == limit + (k - 1) * c + u
  {
    SpentIsBalanced(limit, limit - c);
    WorstCaseRun(limit, k, c, u, Admitted(0));
    RetriedInWorstCase(k, c, u);
  }

  /** So is the bound on the global counter, with the requests counted from their global check on. */
  lemma GlobalOvershootIsTight(limit: nat, k: nat, c: nat, u: nat)
    requires k > 0 && c <= limit
    ensures var s, steps := Crowd(Spent(limit, limit - c), limit, 0, c), WorstCase(k, c, u);
            && Balanced(s.books) && s.flights == [] && s.globalLimit == limit && s.books.total <= limit
            && Bounded(s, steps, AnyoneChecked(), k, c) && AllRetried(steps) == u
            && Run(s, steps).books.total == limit + (k - 1) * c + u
  {
    SpentIsBalanced(limit, limit - c);
    WorstCaseRun(limit, k, c, u, AnyoneChecked());
    RetriedInWorstCase(k, c, u);
  }

  lemma SpentIsBalanced(limit: nat, amount: nat)
    ensures Balanced(Spent(limit, amount))
  {
    var bill := Bill(amount);
    CostSnoc([], bill, _ => true);
    CostSnoc([], bill, (e: UsageEvent) => e.workspace == 0);
    assert [] + [bill] == [bill];
  }

  // ---------- What must be counted for the global bound ----------

  ghost function AnyoneAdmitted(): Flight -> bool {
    (f: Flight) => f.admitted
  }

  /** n requests that have passed the global check only. */
  function Waiting(b: Books, n: nat): State {
    State(b, 1, seq(n, _ => Flight(0, 1, false, true)))
  }

  function ServeAll(n: nat): seq<Step> {
    if n == 0 then [] else [CheckWorkspace(0)] + ([Settle(0, Bill(1))] + ServeAll(n - 1))
  }

  lemma {:induction false} NobodyAdmitted(b: Books, n: nat)
    ensures Count(Waiting(b, n).flights, AnyoneAdmitted()) == 0 && Modest(Waiting(b, n), AnyoneAdmitted(), 1)
    decreases n
  {
    if n > 0 {
      assert Waiting(b, n).flights[1..] == Waiting(b, n - 1).flights;
      NobodyAdmitted(b, n - 1);
    }
  }

  predicate Roomy(b: Books, n: nat) {
    && b.total >= 0 && 0 in b.workspaces && 0 in b.budgets
    && 0 <= b.budgets[0].settled && b.budgets[0].settled + n <= b.budgets[0].limit
  }

  lemma ServeOne(b: Books, n: nat)
    requires n > 0 && Roomy(b, n)
    ensures var serving := State(b, 1, [Flight(0, 1, true, true)] + Waiting(b, n - 1).flights);
            && Next(Waiting(b, n), CheckWorkspace(0)) == serving
            && Next(serving, Settle(0, Bill(1))) == Waiting(Recorded(b, Bill(1)), n - 1)
            && Roomy(Recorded(b, Bill(1)), n - 1) && Recorded(b, Bill(1)).total == b.total + 1
            && Count(serving.flights, AnyoneAdmitted()) == 1 && Modest(serving, AnyoneAdmitted(), 1)
            && Honest(serving, Settle(0, Bill(1)))
  {
    NobodyAdmitted(b, n - 1);
    Joined([Flight(0, 1, true, true)], Waiting(b, n - 1).flights, AnyoneAdmitted());
  }

  lemma {:induction false} ServeAllRun(b: Books, n: nat)
    requires Roomy(b, n)
    ensures Bounded(Waiting(b, n), ServeAll(n), AnyoneAdmitted(), 1, 1)
    ensures Run(Waiting(b, n), ServeAll(n)).books.total == b.total + n
    decreases n
  {
    NobodyAdmitted(b, n);
    if n > 0 {
      var rest := Waiting(Recorded(b, Bill(1)), n - 1);
      var serving := Next(Waiting(b, n), CheckWorkspace(0));
      ServeOne(b, n);
      var served := Run(rest, ServeAll(n - 1));
      assert Bounded(rest, ServeAll(n - 1), AnyoneAdmitted(), 1, 1) && served.books.total == b.total + n by {
        ServeAllRun(Recorded(b, Bill(1)), n - 1);
      }
      BoundedCons(serving, Settle(0, Bill(1)), ServeAll(n - 1), AnyoneAdmitted(), 1, 1);
      BoundedCons(Waiting(b, n), CheckWorkspace(0), [Settle(0, Bill(1))] + ServeAll(n - 1), AnyoneAdmitted(), 1, 1);
    }
  }

  function QueueUp(m: nat, rest: seq<Step>): seq<Step> {
    if m == 0 then rest else [CheckGlobal(0, 1)] + QueueUp(m - 1, rest)
  }

  lemma {:induction false} QueueUpRun(b: Books, n: nat, m: nat, rest: seq<Step>)
    requires b.total == 0 && Bounded(Waiting(b, n + m), rest, AnyoneAdmitted(), 1, 1)
    ensures Bounded(Waiting(b, n), QueueUp(m, rest), AnyoneAdmitted(), 1, 1)
    ensures Run(Waiting(b, n), QueueUp(m, rest)) == Run(Waiting(b, n + m), rest)
    decreases m
  {
    if m > 0 {
      assert Next(Waiting(b, n), CheckGlobal(0, 1)).flights == Waiting(b, n + 1).flights;
      QueueUpRun(b, n + 1, m - 1, rest);
      NobodyAdmitted(b, n);
      BoundedCons(Waiting(b, n), CheckGlobal(0, 1), QueueUp(m - 1, rest), AnyoneAdmitted(), 1, 1);
    }
  }

  /** For the global counter it is not enough that few requests are admitted at once: with one at a time (k = 1),
      a limit of 1 and costs of 1 the counter can end anywhere, because all may pass the global check first. */
  lemma GlobalCountsFromItsOwnCheck(n: nat)
    ensures var s := Waiting(Books({0}, map[0 := Budget(n, 100, 0)], 0, [], []), 0);
            var steps := QueueUp(n, ServeAll(n));
            Bounded(s, steps, AnyoneAdmitted(), 1, 1) && Run(s, steps).books.total == n
  {
    var b := Books({0}, map[0 := Budget(n, 100, 0)], 0, [], []);
    ServeAllRun(b, n);
    QueueUpRun(b, 0, n, ServeAll(n));
  }
}
