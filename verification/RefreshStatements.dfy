/** Refreshes statement by statement: each reads the token once, decides, and then writes in one or two statements
    of its own, while others do the same. */
module RefreshStatements {
  import opened Collections
  import opened RefreshTokens
  import opened TokenFamilies
  import opened TokenRevocation

  /** Where one execution is, with the row it read. */
  datatype Pc =
    | Ready
    | Decided(raw: TokenId, device: string, now: int, row: Option<Token>)
    | Created(raw: TokenId, successor: TokenId, now: int, user: UserId)
    | Over(outcome: Outcome)

  datatype Server = Server(store: Store, procs: seq<Pc>)

  /** One statement of an execution, or one of the other use cases, each a single write. */
  datatype Event =
    | Begin(i: nat, raw: TokenId, device: string, now: int)
    | Advance(i: nat)
    | LogIn(user: UserId, device: string, now: int)
    | LogOut(presented: Option<TokenId>, now: int)
    | RevokeAll(user: UserId, now: int)

  /** Will the execution insert a successor next? */
  predicate Inserts(pc: Pc) {
    && pc.Decided? && pc.row.Some? && pc.row.value.revokedAt.None? && pc.now < pc.row.value.expiresAt
    && pc.row.value.usedAt.None?
  }

  /** The next statement of an execution: its effect, and where it leaves the execution. */
  function Statement(s: Store, pc: Pc, c: Config): (Store, Pc) {
    match pc
    case Decided(raw, device, now, row) =>
      if row.None? || row.value.revokedAt.Some? || row.value.expiresAt <= now then (s, Over(Invalid))
      else if row.value.usedAt.None? then
        (s.(tokens := Create(s.tokens, row.value.user, row.value.family, device, now + c.ttlSeconds)),
         Created(raw, |s.tokens|, now, row.value.user))
      else if now - row.value.usedAt.value <= c.graceSeconds && device == row.value.device && row.value.successor.Some?
      then (s, Over(InGrace(row.value.user)))
      else (s.(tokens := RevokeFamily(s.tokens, row.value.family, now)), Over(Reused))
    case Created(raw, successor, now, user) =>
      (if raw < |s.tokens| then s.(tokens := MarkUsed(s.tokens, raw, successor, now)) else s,
       Over(Rotated(user, successor)))
    case _ => (s, pc)
  }

  function Step(v: Server, e: Event, c: Config): Server {
    match e
    case Begin(i, raw, device, now) =>
      if i >= |v.procs| || !v.procs[i].Ready? then v
      else
        var row := if raw < |v.store.tokens| then Some(v.store.tokens[raw]) else None;
        v.(procs := v.procs[i := Decided(raw, device, now, row)])
    case Advance(i) =>
      if i >= |v.procs| then v
      else
        var (store, next) := Statement(v.store, v.procs[i], c);
        Server(store, v.procs[i := next])
    case LogIn(user, device, now) => v.(store := Login(v.store, user, device, now, c))
    case LogOut(presented, now) => v.(store := Logout(v.store, presented, now))
    case RevokeAll(user, now) => v.(store := RevokeUser(v.store, user, now))
  }

  function Run(v: Server, es: seq<Event>, c: Config): Server
    decreases |es|
  {
    if es == [] then v else Run(Step(v, es[0], c), es[1..], c)
  }

  lemma RunCons(v: Server, e: Event, es: seq<Event>, c: Config)
    ensures Run(v, [e] + es, c) == Run(Step(v, e, c), es, c)
  {
    assert ([e] + es)[1..] == es;
  }

  /** An execution that nobody interrupts is the one-step Refresh. */
  lemma SoloRefresh(v: Server, i: nat, raw: TokenId, device: string, now: int, c: Config)
    requires i < |v.procs| && v.procs[i].Ready?
    ensures var (store, outcome) := Refresh(v.store, raw, device, now, c);
            Run(v, [Begin(i, raw, device, now)] + ([Advance(i)] + ([Advance(i)] + [])), c)
            == Server(store, v.procs[i := Over(outcome)])
  {
    var v1 := Step(v, Begin(i, raw, device, now), c);
    var v2 := Step(v1, Advance(i), c);
    RunCons(v, Begin(i, raw, device, now), [Advance(i)] + ([Advance(i)] + []), c);
    RunCons(v1, Advance(i), [Advance(i)] + [], c);
    RunCons(v2, Advance(i), [], c);
    assert v.procs[i := v1.procs[i]][i := v2.procs[i]] == v.procs[i := v2.procs[i]];
    assert v2.procs[i := Step(v2, Advance(i), c).procs[i]] == Step(v2, Advance(i), c).procs;
  }

  /** Two executions on one token: both have read it before either marks it used. */
  function Race(raw: TokenId, device: string, now: int): seq<Event> {
    [Begin(0, raw, device, now)] + ([Begin(1, raw, device, now)] +
    ([Advance(0)] + ([Advance(1)] + ([Advance(0)] + ([Advance(1)] + [])))))
  }

  /** What the race leaves: two successors, and the old token pointing to the later one. */
  function Forked(s: Store, raw: TokenId, device: string, now: int, c: Config): Store
    requires raw < |s.tokens|
  {
    var t := s.tokens[raw];
    var created := Create(Create(s.tokens, t.user, t.family, device, now + c.ttlSeconds),
                          t.user, t.family, device, now + c.ttlSeconds);
    s.(tokens := MarkUsed(MarkUsed(created, raw, |s.tokens|, now), raw, |s.tokens| + 1, now))
  }

  lemma RaceForks(s: Store, raw: TokenId, device: string, now: int, c: Config)
    requires raw < |s.tokens| && Refresh(s, raw, device, now, c).1.Rotated?
    ensures var t, n := s.tokens[raw], |s.tokens|;
            Run(Server(s, [Ready, Ready]), Race(raw, device, now), c)
            == Server(Forked(s, raw, device, now, c), [Over(Rotated(t.user, n)), Over(Rotated(t.user, n + 1))])
  {
    var t, n := s.tokens[raw], |s.tokens|;
    var read := Decided(raw, device, now, Some(t));
    var v0 := Server(s, [Ready, Ready]);
    var v1, v2 := Server(s, [read, Ready]), Server(s, [read, read]);
    var s1 := s.(tokens := Create(s.tokens, t.user, t.family, device, now + c.ttlSeconds));
    var s2 := s.(tokens := Create(s1.tokens, t.user, t.family, device, now + c.ttlSeconds));
    var made0, made1 := Created(raw, n, now, t.user), Created(raw, n + 1, now, t.user);
    var v3, v4 := Server(s1, [made0, read]), Server(s2, [made0, made1]);
    var s3 := s.(tokens := MarkUsed(s2.tokens, raw, n, now));
    var v5 := Server(s3, [Over(Rotated(t.user, n)), made1]);
    assert Step(v0, Begin(0, raw, device, now), c) == v1 && Step(v1, Begin(1, raw, device, now), c) == v2;
    assert Step(v2, Advance(0), c) == v3 && Step(v3, Advance(1), c) == v4;
    assert Step(v4, Advance(0), c) == v5;
    var last := [Advance(1)] + [];
    RunCons(v0, Begin(0, raw, device, now),
            [Begin(1, raw, device, now)] + ([Advance(0)] + ([Advance(1)] + ([Advance(0)] + last))), c);
    RunCons(v1, Begin(1, raw, device, now), [Advance(0)] + ([Advance(1)] + ([Advance(0)] + last)), c);
    RunCons(v2, Advance(0), [Advance(1)] + ([Advance(0)] + last), c);
    RunCons(v3, Advance(1), [Advance(0)] + last, c);
    RunCons(v4, Advance(0), last, c);
    RunCons(v5, Advance(1), [], c);
  }

  /** Why executions must not interleave: after the race the family has two unused tokens, each of which gives access
      when it is presented, so a stolen one is never noticed. */
  lemma InterleavedRefreshForks(s: Store, raw: TokenId, device: string, now: int, later: int, c: Config)
    requires Families(s) && raw < |s.tokens| && Refresh(s, raw, device, now, c).1.Rotated?
    requires later < now + c.ttlSeconds
    ensures var s', n := Run(Server(s, [Ready, Ready]), Race(raw, device, now), c).store, |s.tokens|;
            && |s'.tokens| == n + 2 && s'.tokens[n].family == s'.tokens[n + 1].family == s.tokens[raw].family
            && Refresh(s', n, device, later, c).1.Rotated? && Refresh(s', n + 1, device, later, c).1.Rotated?
            && !Families(s')
  {
    RaceForks(s, raw, device, now, c);
    var s', n := Forked(s, raw, device, now, c), |s.tokens|;
    assert s'.tokens[n + 1].family == s'.tokens[n].family;
    assert !LastInFamily(s'.tokens, n);
    assert !Linked(s'.tokens, n);
  }

  // ---------- Exactly which statement breaks a family ----------

  /** The mark an execution still owes. */
  function Owed(tokens: seq<Token>, pc: Pc): seq<Token> {
    if pc.Created? && pc.raw < |tokens| then MarkUsed(tokens, pc.raw, pc.successor, pc.now) else tokens
  }

  /** The table as it will be when every half-made link is finished. */
  function Completed(tokens: seq<Token>, procs: seq<Pc>): (out: seq<Token>)
    ensures |out| == |tokens|
    decreases |procs|
  {
    if procs == [] then tokens else Completed(Owed(tokens, procs[0]), procs[1..])
  }

  /** Two executions never finish links from the same token. */
  ghost predicate OwnLinks(procs: seq<Pc>, n: nat) {
    && (forall i :: 0 <= i < |procs| && procs[i].Created? ==> procs[i].raw < n)
    && (forall i, j :: 0 <= i < |procs| && 0 <= j < |procs| && i != j && procs[i].Created? && procs[j].Created? ==>
                         procs[i].raw != procs[j].raw)
  }

  /** What never changes of a token. */
  predicate SameToken(a: Token, b: Token) {
    a.user == b.user && a.family == b.family && a.device == b.device && a.expiresAt == b.expiresAt
  }

  /** A row an execution has read is that token's row, as it was some time. */
  ghost predicate RowsMatch(v: Server) {
    forall i :: 0 <= i < |v.procs| && v.procs[i].Decided? && v.procs[i].row.Some? ==>
                  && v.procs[i].raw < |v.store.tokens|
                  && SameToken(v.procs[i].row.value, v.store.tokens[v.procs[i].raw])
  }

  function Finished(v: Server): Store {
    v.store.(tokens := Completed(v.store.tokens, v.procs))
  }

  /** Families hold, half-made links counted as made. */
  ghost predicate Good(v: Server) {
    OwnLinks(v.procs, |v.store.tokens|) && RowsMatch(v) && Families(Finished(v))
  }

  /** An insertion decided on a row that is no longer so: the token is used by now, or is about to be marked, or is
      revoked. */
  predicate Stale(v: Server, e: Event) {
    && e.Advance? && e.i < |v.procs| && Inserts(v.procs[e.i])
    && (v.procs[e.i].raw < |v.store.tokens| ==>
          var t := Completed(v.store.tokens, v.procs)[v.procs[e.i].raw];
          t.usedAt.Some? || t.revokedAt.Some?)
  }

  /** Every token as Completed leaves it: its own mark if some execution owes one. */
  lemma {:induction false} CompletedAt(tokens: seq<Token>, procs: seq<Pc>, k: nat)
    requires k < |tokens|
    ensures (forall i :: 0 <= i < |procs| && procs[i].Created? ==> procs[i].raw != k) ==>
              Completed(tokens, procs)[k] == tokens[k]
    ensures var t := Completed(tokens, procs)[k];
            t == tokens[k].(usedAt := t.usedAt, successor := t.successor)
    ensures tokens[k].usedAt.Some? ==> Completed(tokens, procs)[k].usedAt.Some?
    decreases |procs|
  {
    if procs != [] {
      CompletedAt(Owed(tokens, procs[0]), procs[1..], k);
      if forall i :: 0 <= i < |procs| && procs[i].Created? ==> procs[i].raw != k {
        forall i | 0 <= i < |procs[1..]| && procs[1..][i].Created?
          ensures procs[1..][i].raw != k
        {
          assert procs[1..][i] == procs[i + 1];
        }
        assert procs[0].Created? ==> procs[0].raw != k;
      }
    }
  }

  /** ... and the one execution that owes it a mark is who gives it. */
  lemma {:induction false} CompletedMark(tokens: seq<Token>, procs: seq<Pc>, j: nat)
    requires j < |procs| && procs[j].Created? && procs[j].raw < |tokens|
    requires forall i :: 0 <= i < |procs| && i != j && procs[i].Created? ==> procs[i].raw != procs[j].raw
    ensures var k := procs[j].raw;
            Completed(tokens, procs)[k] ==
            tokens[k].(usedAt := Some(procs[j].now), successor := Some(procs[j].successor))
    decreases |procs|
  {
    var k, next := procs[j].raw, Owed(tokens, procs[0]);
    if j == 0 {
      forall i | 0 <= i < |procs[1..]| && procs[1..][i].Created?
        ensures procs[1..][i].raw != k
      {
        assert procs[1..][i] == procs[i + 1];
      }
      CompletedAt(next, procs[1..], k);
    } else {
      assert procs[1..][j - 1] == procs[j];
      forall i | 0 <= i < |procs[1..]| && i != j - 1 && procs[1..][i].Created?
        ensures procs[1..][i].raw != k
      {
        assert procs[1..][i] == procs[i + 1];
      }
      CompletedMark(next, procs[1..], j - 1);
    }
  }

  predicate Owes(procs: seq<Pc>, j: nat, k: nat) {
    j < |procs| && procs[j].Created? && procs[j].raw == k
  }

  /** out is the table with every owed mark made. */
  ghost predicate Marked(tokens: seq<Token>, procs: seq<Pc>, out: seq<Token>) {
    && |out| == |tokens|
    && (forall k :: 0 <= k < |tokens| && (forall j: nat :: !Owes(procs, j, k)) ==> out[k] == tokens[k])
    && (forall j: nat, k: nat :: k < |tokens| && Owes(procs, j, k) ==>
          out[k] == tokens[k].(usedAt := Some(procs[j].now), successor := Some(procs[j].successor)))
  }

  lemma CompletedIsMarked(tokens: seq<Token>, procs: seq<Pc>)
    requires OwnLinks(procs, |tokens|)
    ensures Marked(tokens, procs, Completed(tokens, procs))
  {
    var out := Completed(tokens, procs);
    forall k | 0 <= k < |tokens| && forall j: nat :: !Owes(procs, j, k)
      ensures out[k] == tokens[k]
    {
      forall i | 0 <= i < |procs| && procs[i].Created?
        ensures procs[i].raw != k
      {
        assert !Owes(procs, i, k);
      }
      CompletedAt(tokens, procs, k);
    }
    forall j: nat, k: nat | k < |tokens| && Owes(procs, j, k)
      ensures out[k] == tokens[k].(usedAt := Some(procs[j].now), successor := Some(procs[j].successor))
    {
      CompletedMark(tokens, procs, j);
    }
  }

  lemma MarkedIsCompleted(tokens: seq<Token>, procs: seq<Pc>, out: seq<Token>)
    requires OwnLinks(procs, |tokens|) && Marked(tokens, procs, out)
    ensures out == Completed(tokens, procs)
  {
    CompletedIsMarked(tokens, procs);
    var c := Completed(tokens, procs);
    forall k | 0 <= k < |tokens|
      ensures out[k] == c[k]
    {
      if j: nat :| Owes(procs, j, k) {
        assert out[k] == c[k];
      }
    }
  }

  /** Executions that owe the same marks complete the table alike. */
  lemma SameOwed(tokens: seq<Token>, procs: seq<Pc>, i: nat, pc: Pc)
    requires OwnLinks(procs, |tokens|) && i < |procs| && !procs[i].Created? && !pc.Created?
    ensures OwnLinks(procs[i := pc], |tokens|) && Completed(tokens, procs[i := pc]) == Completed(tokens, procs)
  {
    var procs', out := procs[i := pc], Completed(tokens, procs);
    CompletedIsMarked(tokens, procs);
    forall k: nat, j: nat
      ensures Owes(procs', j, k) <==> Owes(procs, j, k)
    {
    }
    MarkedIsCompleted(tokens, procs', out);
  }

  /** Making an owed mark completes nothing new. */
  lemma MarkStep(tokens: seq<Token>, procs: seq<Pc>, i: nat, outcome: Outcome)
    requires OwnLinks(procs, |tokens|) && i < |procs| && procs[i].Created?
    ensures var procs' := procs[i := Over(outcome)];
            OwnLinks(procs', |tokens|) && Completed(Owed(tokens, procs[i]), procs') == Completed(tokens, procs)
  {
    var procs', out, tokens' := procs[i := Over(outcome)], Completed(tokens, procs), Owed(tokens, procs[i]);
    CompletedIsMarked(tokens, procs);
    forall k: nat, j: nat
      ensures Owes(procs', j, k) <==> j != i && Owes(procs, j, k)
    {
    }
    forall k | 0 <= k < |tokens'| && forall j: nat :: !Owes(procs', j, k)
      ensures out[k] == tokens'[k]
    {
      if k == procs[i].raw {
        assert Owes(procs, i, k);
      } else {
        forall j: nat
          ensures !Owes(procs, j, k)
        {
          assert !Owes(procs', j, k);
        }
      }
    }
    MarkedIsCompleted(tokens', procs', out);
  }

  /** A new row completes to itself. */
  lemma NewRow(tokens: seq<Token>, procs: seq<Pc>, t: Token)
    requires OwnLinks(procs, |tokens|)
    ensures OwnLinks(procs, |tokens + [t]|) && Completed(tokens + [t], procs) == Completed(tokens, procs) + [t]
  {
    var out := Completed(tokens, procs) + [t];
    CompletedIsMarked(tokens, procs);
    forall j: nat
      ensures !Owes(procs, j, |tokens|)
    {
    }
    MarkedIsCompleted(tokens + [t], procs, out);
  }

  /** A successor inserted with its mark owed is the rotation of the completed table. */
  lemma InsertedLink(tokens: seq<Token>, procs: seq<Pc>, i: nat, pc: Pc, t: Token)
    requires OwnLinks(procs, |tokens|) && i < |procs| && !procs[i].Created?
    requires pc.Created? && pc.raw < |tokens| && forall j: nat :: !Owes(procs, j, pc.raw)
    ensures var procs' := procs[i := pc];
            && OwnLinks(procs', |tokens + [t]|)
            && Completed(tokens + [t], procs') ==
               MarkUsed(Completed(tokens, procs) + [t], pc.raw, pc.successor, pc.now)
  {
    var procs', all := procs[i := pc], tokens + [t];
    var out := MarkUsed(Completed(tokens, procs) + [t], pc.raw, pc.successor, pc.now);
    forall a, b | 0 <= a < |procs'| && 0 <= b < |procs'| && a != b && procs'[a].Created? && procs'[b].Created?
      ensures procs'[a].raw != procs'[b].raw
    {
      assert !Owes(procs, a, pc.raw) && !Owes(procs, b, pc.raw);
    }
    CompletedIsMarked(tokens, procs);
    forall k: nat, j: nat
      ensures Owes(procs', j, k) <==> (j == i && k == pc.raw) || (j != i && Owes(procs, j, k))
      ensures Owes(procs, j, k) ==> k < |tokens| && j != i
    {
    }
    forall k | 0 <= k < |all| && forall j: nat :: !Owes(procs', j, k)
      ensures out[k] == all[k]
    {
      assert !Owes(procs', i, k);
      forall j: nat
        ensures !Owes(procs, j, k)
      {
        assert !Owes(procs', j, k);
      }
    }
    MarkedIsCompleted(all, procs', out);
  }

  /** Revoking by user or family and finishing links commute. */
  lemma {:induction false} RevokeCompleted(tokens: seq<Token>, procs: seq<Pc>, hit: Token -> bool, now: int)
    requires forall t: Token, u: Option<int>, x: Option<TokenId> :: hit(t.(usedAt := u, successor := x)) == hit(t)
    ensures Completed(RevokeWhere(tokens, hit, now), procs) == RevokeWhere(Completed(tokens, procs), hit, now)
    decreases |procs|
  {
    if procs != [] {
      assert Owed(RevokeWhere(tokens, hit, now), procs[0]) == RevokeWhere(Owed(tokens, procs[0]), hit, now);
      RevokeCompleted(Owed(tokens, procs[0]), procs[1..], hit, now);
    }
  }

  lemma BeginStep(v: Server, e: Event, c: Config)
    requires Good(v) && e.Begin?
    ensures Good(Step(v, e, c))
  {
    var v' := Step(v, e, c);
    if v' != v {
      SameOwed(v.store.tokens, v.procs, e.i, v'.procs[e.i]);
    }
  }

  /** A statement that writes nothing, and the revocation a reuse leads to. */
  lemma DecisionStep(v: Server, i: nat, c: Config)
    requires Good(v) && i < |v.procs| && !v.procs[i].Created? && !Inserts(v.procs[i])
    ensures Good(Step(v, Advance(i), c))
  {
    var v', pc := Step(v, Advance(i), c), v.procs[i];
    SameOwed(v.store.tokens, v.procs, i, v'.procs[i]);
    if v'.store != v.store {
      var family := pc.row.value.family;
      RevokedStep(v, family, pc.now, v'.procs);
    }
  }

  lemma RevokedStep(v: Server, family: FamilyId, now: int, procs: seq<Pc>)
    requires Good(v) && OwnLinks(procs, |v.store.tokens|)
    requires Completed(v.store.tokens, procs) == Completed(v.store.tokens, v.procs)
    requires forall i :: 0 <= i < |procs| && procs[i].Decided? ==> i < |v.procs| && procs[i] == v.procs[i]
    ensures Good(Server(v.store.(tokens := RevokeFamily(v.store.tokens, family, now)), procs))
  {
    RevokedFinished(v.store.tokens, procs, family, now);
    FamilyRevoked(Finished(v), family, now);
    RevokedRowsMatch(v, family, now, procs);
  }

  lemma RevokedFinished(tokens: seq<Token>, procs: seq<Pc>, family: FamilyId, now: int)
    ensures |RevokeFamily(tokens, family, now)| == |tokens|
    ensures Completed(RevokeFamily(tokens, family, now), procs) == RevokeFamily(Completed(tokens, procs), family, now)
  {
    RevokeCompleted(tokens, procs, (t: Token) => t.family == family, now);
  }

  lemma FamilyRevoked(s: Store, family: FamilyId, now: int)
    requires Families(s)
    ensures Families(s.(tokens := RevokeFamily(s.tokens, family, now)))
  {
    RevocationKeepsFamilies(s, RevokeFamily(s.tokens, family, now), now, {family});
  }

  lemma RevokedRowsMatch(v: Server, family: FamilyId, now: int, procs: seq<Pc>)
    requires RowsMatch(v)
    requires forall i :: 0 <= i < |procs| && procs[i].Decided? ==> i < |v.procs| && procs[i] == v.procs[i]
    ensures RowsMatch(Server(v.store.(tokens := RevokeFamily(v.store.tokens, family, now)), procs))
  {
  }

  lemma RevokeAllStep(v: Server, user: UserId, now: int)
    requires Good(v)
    ensures Good(v.(store := RevokeUser(v.store, user, now)))
  {
    RevokeCompleted(v.store.tokens, v.procs, (t: Token) => t.user == user, now);
    RevokeUserKeepsFamilies(Finished(v), user, now);
  }

  lemma LogInStep(v: Server, user: UserId, device: string, now: int, c: Config)
    requires Good(v)
    ensures Good(v.(store := Login(v.store, user, device, now, c)))
  {
    NewRow(v.store.tokens, v.procs, Token(user, v.store.nextFamily, device, None, None, now + c.ttlSeconds, None));
    LoginKeepsFamilies(Finished(v), user, device, now, c);
  }

  lemma FinishStep(v: Server, i: nat, c: Config)
    requires Good(v) && i < |v.procs| && v.procs[i].Created?
    ensures Good(Step(v, Advance(i), c)) && Finished(Step(v, Advance(i), c)) == Finished(v)
  {
    MarkStep(v.store.tokens, v.procs, i, Rotated(v.procs[i].user, v.procs[i].successor));
  }

  /** A token that is not used in the completed table is owed no mark. */
  lemma UnusedIsOwedNothing(v: Server, k: nat)
    requires Good(v) && k < |v.store.tokens| && Finished(v).tokens[k].usedAt.None?
    ensures forall j: nat :: !Owes(v.procs, j, k)
    ensures Finished(v).tokens[k] == v.store.tokens[k]
  {
    CompletedIsMarked(v.store.tokens, v.procs);
  }

  /** A timely insertion is a rotation of the completed table. */
  lemma InsertStep(v: Server, i: nat, c: Config)
    requires Good(v) && i < |v.procs| && Inserts(v.procs[i]) && !Stale(v, Advance(i))
    ensures Good(Step(v, Advance(i), c))
    ensures Finished(Step(v, Advance(i), c)) ==
            Refresh(Finished(v), v.procs[i].raw, v.procs[i].device, v.procs[i].now, c).0
  {
    var pc, v', f := v.procs[i], Step(v, Advance(i), c), Finished(v);
    var t := v'.store.tokens[|v.store.tokens|];
    UnusedIsOwedNothing(v, pc.raw);
    InsertedLink(v.store.tokens, v.procs, i, v'.procs[i], t);
    RotationKeepsFamilies(f, pc.raw, pc.device, pc.now, c);
  }

  /** A stale insertion breaks its family at once: a second link from one token, or a live token among revoked ones. */
  lemma StaleBreaks(v: Server, i: nat, c: Config)
    requires Good(v) && Stale(v, Advance(i))
    ensures !Good(Step(v, Advance(i), c))
  {
    var pc, v', n := v.procs[i], Step(v, Advance(i), c), |v.store.tokens|;
    var raw, t := pc.raw, Finished(v).tokens[pc.raw];
    CompletedIsMarked(v.store.tokens, v.procs);
    if Good(v') {
      CompletedIsMarked(v'.store.tokens, v'.procs);
      var out := Finished(v').tokens;
      assert Owes(v'.procs, i, raw);
      assert out[raw].successor == Some(n) && out[raw].revokedAt == t.revokedAt;
      assert forall j: nat :: !Owes(v'.procs, j, n);
      assert out[n] == v'.store.tokens[n];
      assert Agree(out[raw], out[n]);
      assert t.usedAt.Some?;
      NoSecondSuccessor(v, v', i, c);
    }
  }

  lemma NoSecondSuccessor(v: Server, v': Server, i: nat, c: Config)
    requires Good(v) && i < |v.procs| && Inserts(v.procs[i]) && v' == Step(v, Advance(i), c) && Good(v')
    ensures Finished(v).tokens[v.procs[i].raw].usedAt.None?
  {
    var raw, n := v.procs[i].raw, |v.store.tokens|;
    var before, after := Finished(v).tokens, Finished(v').tokens;
    CompletedIsMarked(v.store.tokens, v.procs);
    CompletedIsMarked(v'.store.tokens, v'.procs);
    assert Owes(v'.procs, i, raw);
    assert after[raw].usedAt.Some? && after[raw].successor == Some(n);
    assert Linked(after, raw) && Linked(before, raw);
    if before[raw].usedAt.Some? {
      var m := before[raw].successor.value;
      CompletedAt(v.store.tokens, v.procs, m);
      CompletedAt(v.store.tokens, v.procs, raw);
      CompletedAt(v'.store.tokens, v'.procs, m);
      CompletedAt(v'.store.tokens, v'.procs, raw);
    }
  }

  /** Exactly which statement breaks a family: from any state in which families hold, half-made links counted as made,
      whatever statement of whatever execution or use case comes next, they still hold after it if and only if it is
      not an insertion decided on a row that has been used, claimed or revoked since it was read. */
  lemma BreaksIffStale(v: Server, e: Event, c: Config)
    requires Good(v)
    ensures Good(Step(v, e, c)) <==> !Stale(v, e)
  {
    match e
    case Begin(_, _, _, _) => BeginStep(v, e, c);
    case Advance(i) =>
      if i < |v.procs| {
        if v.procs[i].Created? {
          FinishStep(v, i, c);
        } else if !Inserts(v.procs[i]) {
          DecisionStep(v, i, c);
        } else if Stale(v, e) {
          StaleBreaks(v, i, c);
        } else {
          InsertStep(v, i, c);
        }
      }
    case LogIn(user, device, now) => LogInStep(v, user, device, now, c);
    case LogOut(presented, now) =>
      if presented.Some? && presented.value < |v.store.tokens| {
        RevokedStep(v, v.store.tokens[presented.value].family, now, v.procs);
      }
    case RevokeAll(user, now) => RevokeAllStep(v, user, now);
  }

  /** No execution is between its two writes. */
  ghost predicate AtRest(v: Server) {
    forall i :: 0 <= i < |v.procs| ==> !v.procs[i].Created?
  }

  lemma AtRestIsFinished(v: Server)
    requires AtRest(v)
    ensures Finished(v) == v.store && OwnLinks(v.procs, |v.store.tokens|)
  {
    MarkedIsCompleted(v.store.tokens, v.procs, v.store.tokens);
  }

  /** No insertion of the run is stale. */
  ghost predicate Timely(v: Server, es: seq<Event>, c: Config)
    decreases |es|
  {
    es == [] || (!Stale(v, es[0]) && Timely(Step(v, es[0], c), es[1..], c))
  }

  lemma {:induction false} TimelyRun(v: Server, es: seq<Event>, c: Config)
    requires Good(v) && Timely(v, es, c)
    ensures Good(Run(v, es, c))
    decreases |es|
  {
    if es != [] {
      BreaksIffStale(v, es[0], c);
      TimelyRun(Step(v, es[0], c), es[1..], c);
    }
  }

  // ---------- One execution per family at a time ----------

  /** The family an execution may still write to. */
  function OpenOn(v: Server, j: nat): Option<FamilyId> {
    if j >= |v.procs| then None
    else
      match v.procs[j]
      case Decided(_, _, _, Some(row)) => Some(row.family)
      case Created(raw, _, _, _) => if raw < |v.store.tokens| then Some(v.store.tokens[raw].family) else None
      case _ => None
  }

  ghost predicate Untouched(v: Server, family: FamilyId) {
    forall j: nat :: OpenOn(v, j) != Some(family)
  }

  /** The condition a caller can arrange, by a lock per family: an execution begins, and a family is logged out or
      revoked, only while no execution is open on that family. */
  ghost predicate PerFamily(v: Server, e: Event) {
    match e
    case Begin(_, raw, _, _) => raw < |v.store.tokens| ==> Untouched(v, v.store.tokens[raw].family)
    case LogOut(Some(raw), _) => raw < |v.store.tokens| ==> Untouched(v, v.store.tokens[raw].family)
    case RevokeAll(user, _) =>
      forall k :: 0 <= k < |v.store.tokens| && v.store.tokens[k].user == user ==> Untouched(v, v.store.tokens[k].family)
    case _ => true
  }

  /** What each execution has read is still so, and no two are open on one family. */
  ghost predicate Undisturbed(v: Server) {
    && (forall i :: 0 <= i < |v.procs| && v.procs[i].Decided? && v.procs[i].row.Some? ==>
                      && v.procs[i].raw < |v.store.tokens|
                      && v.store.tokens[v.procs[i].raw] == v.procs[i].row.value)
    && (forall i: nat, j: nat :: OpenOn(v, i).Some? && OpenOn(v, i) == OpenOn(v, j) ==> i == j)
  }

  lemma UndisturbedIsTimely(v: Server, e: Event)
    requires Good(v) && Undisturbed(v)
    ensures !Stale(v, e)
  {
    if e.Advance? && e.i < |v.procs| && Inserts(v.procs[e.i]) {
      var raw := v.procs[e.i].raw;
      forall j: nat
        ensures !Owes(v.procs, j, raw)
      {
        assert Owes(v.procs, j, raw) ==> OpenOn(v, j) == OpenOn(v, e.i);
      }
      CompletedIsMarked(v.store.tokens, v.procs);
    }
  }

  /** A write to one family leaves the rows the others have read alone. */
  lemma UndisturbedStep(v: Server, e: Event, c: Config)
    requires Good(v) && Undisturbed(v) && PerFamily(v, e)
    ensures Undisturbed(Step(v, e, c))
  {
    var v' := Step(v, e, c);
    forall i | 0 <= i < |v'.procs| && v'.procs[i].Decided? && v'.procs[i].row.Some?
      ensures v'.procs[i].raw < |v'.store.tokens|
      ensures v'.store.tokens[v'.procs[i].raw] == v'.procs[i].row.value
    {
      if v'.procs[i] == v.procs[i] {
        RowUntouched(v, e, i, c);
      }
    }
    forall i: nat, j: nat | OpenOn(v', i).Some? && OpenOn(v', i) == OpenOn(v', j)
      ensures i == j
    {
      OpenStep(v, e, i, c);
      OpenStep(v, e, j, c);
    }
  }

  /** The token an execution is about keeps its family. */
  lemma SameFamilies(v: Server, e: Event, c: Config)
    ensures |v.store.tokens| <= |Step(v, e, c).store.tokens|
    ensures forall k :: 0 <= k < |v.store.tokens| ==> Step(v, e, c).store.tokens[k].family == v.store.tokens[k].family
  {
  }

  /** Executions open on no family they were not open on before, but the one that begins. */
  lemma OpenStep(v: Server, e: Event, j: nat, c: Config)
    requires Good(v) && Undisturbed(v)
    ensures var v' := Step(v, e, c);
            if e.Begin? && j == e.i && v' != v then
              OpenOn(v', j) == if e.raw < |v.store.tokens| then Some(v.store.tokens[e.raw].family) else None
            else OpenOn(v', j) == None || OpenOn(v', j) == OpenOn(v, j)
  {
    SameFamilies(v, e, c);
  }

  lemma RowUntouched(v: Server, e: Event, i: nat, c: Config)
    requires Good(v) && Undisturbed(v) && PerFamily(v, e)
    requires i < |v.procs| && v.procs[i].Decided? && v.procs[i].row.Some? && !(e.Advance? && e.i == i)
    ensures Step(v, e, c).store.tokens[v.procs[i].raw] == v.store.tokens[v.procs[i].raw]
  {
    var family := v.procs[i].row.value.family;
    assert OpenOn(v, i) == Some(family);
    match e
    case Advance(j) =>
      if j < |v.procs| {
        assert OpenOn(v, j) != Some(family);
      }
    case _ =>
  }

  ghost predicate PerFamilyRun(v: Server, es: seq<Event>, c: Config)
    decreases |es|
  {
    es == [] || (PerFamily(v, es[0]) && PerFamilyRun(Step(v, es[0], c), es[1..], c))
  }

  lemma {:induction false} PerFamilyKeeps(v: Server, es: seq<Event>, c: Config)
    requires Good(v) && Undisturbed(v) && PerFamilyRun(v, es, c)
    ensures Good(Run(v, es, c)) && Undisturbed(Run(v, es, c))
    decreases |es|
  {
    if es != [] {
      UndisturbedIsTimely(v, es[0]);
      BreaksIffStale(v, es[0], c);
      UndisturbedStep(v, es[0], c);
      PerFamilyKeeps(Step(v, es[0], c), es[1..], c);
    }
  }

  function Idle(s: Store, executions: nat): Server {
    Server(s, seq(executions, _ => Ready))
  }

  /** Families survive concurrency, family by family: for any number of executions, logins, logouts and revocations in
      any interleaving, if none begins on a family, and none is logged out or revoked, while another execution is open
      on that family, then whenever no execution is between its two writes, all families are chains with one user,
      wholly live or wholly revoked. */
  lemma FamiliesUnderPerFamilyLock(s: Store, executions: nat, es: seq<Event>, c: Config)
    requires Families(s) && PerFamilyRun(Idle(s, executions), es, c)
    ensures var v := Run(Idle(s, executions), es, c);
            AtRest(v) ==> Families(v.store)
  {
    var v0, v := Idle(s, executions), Run(Idle(s, executions), es, c);
    AtRestIsFinished(v0);
    PerFamilyKeeps(v0, es, c);
    if AtRest(v) {
      AtRestIsFinished(v);
    }
  }

  /** Without any lock: at rest families hold after every run in which no insertion was stale ... */
  lemma FamiliesIfTimely(s: Store, executions: nat, es: seq<Event>, c: Config)
    requires Families(s) && Timely(Idle(s, executions), es, c)
    ensures var v := Run(Idle(s, executions), es, c);
            AtRest(v) ==> Families(v.store)
  {
    AtRestIsFinished(Idle(s, executions));
    TimelyRun(Idle(s, executions), es, c);
    if AtRest(Run(Idle(s, executions), es, c)) {
      AtRestIsFinished(Run(Idle(s, executions), es, c));
    }
  }

  lemma {:induction false} RunJoin(v: Server, a: seq<Event>, b: seq<Event>, c: Config)
    ensures Run(v, a + b, c) == Run(Run(v, a, c), b, c)
    decreases |a|
  {
    if a == [] {
      assert a + b == b;
    } else {
      HeadAndTail(a, b);
      RunJoin(Step(v, a[0], c), a[1..], b, c);
    }
  }

  /** ... and the first stale one ends that, once its execution has finished. */
  lemma FamiliesUntilStale(s: Store, executions: nat, es: seq<Event>, i: nat, c: Config)
    requires Families(s) && Timely(Idle(s, executions), es, c)
    requires var v := Run(Idle(s, executions), es, c); AtRest(v) && Stale(v, Advance(i))
    ensures !Families(Run(Idle(s, executions), es + ([Advance(i)] + ([Advance(i)] + [])), c).store)
  {
    AtRestIsFinished(Idle(s, executions));
    TimelyRun(Idle(s, executions), es, c);
    var v := Run(Idle(s, executions), es, c);
    StaleThenFinished(v, i, c);
    RunJoin(Idle(s, executions), es, [Advance(i)] + ([Advance(i)] + []), c);
  }

  lemma StaleThenFinished(v: Server, i: nat, c: Config)
    requires Good(v) && AtRest(v) && Stale(v, Advance(i))
    ensures !Families(Run(v, [Advance(i)] + ([Advance(i)] + []), c).store)
  {
    var v1 := Step(v, Advance(i), c);
    var v2 := Step(v1, Advance(i), c);
    RunCons(v, Advance(i), [Advance(i)] + [], c);
    RunCons(v1, Advance(i), [], c);
    StaleBreaks(v, i, c);
    assert OwnLinks(v1.procs, |v1.store.tokens|);
    MarkStep(v1.store.tokens, v1.procs, i, Rotated(v1.procs[i].user, v1.procs[i].successor));
    AtRestIsFinished(v2);
  }

  // ---------- Insertions that come too late ----------

  /** A refresh that has read its token before the family was revoked inserts a live token into the revoked family, and
      that token gives access. */
  lemma LateInsertion(v: Server, i: nat, later: int, c: Config)
    requires i < |v.procs| && Inserts(v.procs[i]) && RowsMatch(v)
    requires RevokedFamily(v.store, v.procs[i].row.value.family) && later < v.procs[i].now + c.ttlSeconds
    ensures var pc, n := v.procs[i], |v.store.tokens|;
            var s := Run(v, [Advance(i)] + ([Advance(i)] + []), c).store;
            && |s.tokens| == n + 1 && s.tokens[n].family == pc.row.value.family
            && s.tokens[pc.raw].family == s.tokens[n].family && s.tokens[pc.raw].revokedAt.Some?
            && Refresh(s, n, pc.device, later, c).1.Rotated?
            && !Families(s)
  {
    var v1 := Step(v, Advance(i), c);
    RunCons(v, Advance(i), [Advance(i)] + [], c);
    RunCons(v1, Advance(i), [], c);
    var s, n := Step(v1, Advance(i), c).store, |v.store.tokens|;
    assert !Agree(s.tokens[v.procs[i].raw], s.tokens[n]);
  }

  /** One execution has read the unused tip; another presents an older token of the family and is answered as a reuse,
      which revokes the family; the first goes on. The theft was noticed, and its victim's or the thief's new token
      lives on. */
  lemma ReuseDefeated(s: Store, raw: TokenId, old_: TokenId, device: string, now: int, later: int, c: Config)
    requires Families(s) && raw < |s.tokens| && old_ < |s.tokens| && s.tokens[old_].family == s.tokens[raw].family
    requires Refresh(s, raw, device, now, c).1.Rotated? && Refresh(s, old_, device, now, c).1.Reused?
    requires later < now + c.ttlSeconds
    ensures var es := [Begin(0, raw, device, now)] + ([Begin(1, old_, device, now)] +
                      ([Advance(1)] + ([Advance(0)] + ([Advance(0)] + []))));
            var v, n := Run(Idle(s, 2), es, c), |s.tokens|;
            && |v.procs| == 2 && v.procs[1] == Over(Reused) && |v.store.tokens| == n + 1
            && v.store.tokens[n].family == s.tokens[raw].family && v.store.tokens[raw].revokedAt.Some?
            && Refresh(v.store, n, device, later, c).1.Rotated? && !Families(v.store)
  {
    var last := [Advance(0)] + ([Advance(0)] + []);
    var v0 := Idle(s, 2);
    var v1 := Step(v0, Begin(0, raw, device, now), c);
    var v2 := Step(v1, Begin(1, old_, device, now), c);
    var v3 := Step(v2, Advance(1), c);
    RunCons(v0, Begin(0, raw, device, now), [Begin(1, old_, device, now)] + ([Advance(1)] + last), c);
    RunCons(v1, Begin(1, old_, device, now), [Advance(1)] + last, c);
    RunCons(v2, Advance(1), last, c);
    LateInsertion(v3, 0, later, c);
    RunCons(v3, Advance(0), [Advance(0)] + [], c);
    RunCons(Step(v3, Advance(0), c), Advance(0), [], c);
  }

  /** The same after a logout, and after all of the user's sessions are revoked. */
  lemma LogoutDefeated(s: Store, raw: TokenId, device: string, now: int, later: int, all: bool, c: Config)
    requires Families(s) && raw < |s.tokens| && Refresh(s, raw, device, now, c).1.Rotated?
    requires later < now + c.ttlSeconds
    ensures var out := if all then RevokeAll(s.tokens[raw].user, now) else LogOut(Some(raw), now);
            var es := [Begin(0, raw, device, now)] + ([out] + ([Advance(0)] + ([Advance(0)] + [])));
            var s', n := Run(Idle(s, 1), es, c).store, |s.tokens|;
            && |s'.tokens| == n + 1 && s'.tokens[n].family == s.tokens[raw].family && s'.tokens[raw].revokedAt.Some?
            && Refresh(s', n, device, later, c).1.Rotated? && !Families(s')
  {
    var out := if all then RevokeAll(s.tokens[raw].user, now) else LogOut(Some(raw), now);
    var last := [Advance(0)] + ([Advance(0)] + []);
    var v0 := Idle(s, 1);
    var v1 := Step(v0, Begin(0, raw, device, now), c);
    var v2 := Step(v1, out, c);
    RunCons(v0, Begin(0, raw, device, now), [out] + last, c);
    RunCons(v1, out, last, c);
    if all {
      RevokeUserRevokes(s, s.tokens[raw].user, now, raw);
    } else {
      LogoutRevokes(s, raw, now);
    }
    LateInsertion(v2, 0, later, c);
  }

  /** A login, whatever refreshes are under way, starts a family of its own whose token rotates within its lifetime. */
  lemma LogInMeanwhile(v: Server, user: UserId, device: string, now: int, presenter: string, later: int, c: Config)
    requires later < now + c.ttlSeconds
    ensures var v', n := Step(v, LogIn(user, device, now), c), |v.store.tokens|;
            && v'.procs == v.procs && |v'.store.tokens| == n + 1 && v'.store.tokens[..n] == v.store.tokens
            && v'.store.tokens[n].family == v.store.nextFamily < v'.store.nextFamily
            && Refresh(v'.store, n, presenter, later, c).1 == Rotated(user, n + 1)
  {
  }
}
