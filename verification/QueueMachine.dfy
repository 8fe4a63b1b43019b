/** Many callers of the ingestion queue at once, one Redis command per step. */
module QueueMachine {
  import opened Collections
  import opened RedisCommands
  import opened IngestionQueue

  /** Where a caller is; every case but Idle and Holding names the Redis command it runs next. */
  datatype Pc =
    | Idle
    | Grouping(t: TenantId, p: Payload)                        // XGROUP CREATE
    | Adding(t: TenantId, p: Payload)                          // XADD
    | Scheduling(t: TenantId, held: Option<Message>)           // SADD
    | Pushing(t: TenantId, held: Option<Message>)              // RPUSH
    | Popping                                                  // LPOP
    | Popped(t: TenantId)                                      // SREM
    | Probing(t: TenantId)                                     // XPENDING
    | Reclaiming(t: TenantId, id: MessageId, times: nat)       // XCLAIM
    | Reading(t: TenantId)                                     // XREADGROUP
    | Holding(m: Message)                                      // the handler runs
    | DeadLettering(m: Message)                                // XADD to the dead-letter stream
    | Acking(m: Message, dead: bool)                           // XACK
    | Crashed                                                  // Redis answered NOGROUP

  datatype Resolution = Resolution(m: Message, dead: bool)

  /** `log` is history only: the resolved messages in the order of their XACKs. */
  datatype State = State(redis: Redis, procs: seq<Pc>, log: seq<Resolution>)

  /** The caller an event is about must exist and be where the event starts; otherwise nothing happens. */
  datatype Event =
    | StartEnqueue(i: nat, t: TenantId, p: Payload)
    | StartClaim(i: nat)
    | HandlerSucceeds(i: nat)
    | HandlerFails(i: nat)
    | Advance(i: nat)

  function Done(held: Option<Message>): Pc {
    if held.None? then Idle else Holding(held.value)
  }

  /** The next command of a caller: its effect and where it leaves the caller. */
  function Command(r: Redis, pc: Pc): (Redis, Pc) {
    match pc
    case Grouping(t, p) => (XgroupCreate(r, t), Adding(t, p))
    case Adding(t, p) => (Xadd(r, t, p), Scheduling(t, None))
    case Scheduling(t, held) =>
      var (added, isNew) := Sadd(r, t);
      (added, if isNew then Pushing(t, held) else Done(held))
    case Pushing(t, held) => (Rpush(r, t), Done(held))
    case Popping =>
      var (popped, head) := Lpop(r);
      (popped, if head.None? then Idle else Popped(head.value))
    case Popped(t) => (Srem(r, t), Probing(t))
    case Probing(t) =>
      if !StreamOf(r, t).grouped then (r, Crashed)
      else
        var entry := XpendingOldest(r, t);
        (r, if entry.None? then Reading(t) else Reclaiming(t, entry.value.id, entry.value.timesDelivered))
    case Reclaiming(t, id, times) =>
      var (claimed, fields) := Xclaim(r, t, id);
      (claimed,
       if fields.None? then Reading(t) else Scheduling(t, Some(Message(t, id, fields.value, times + 1))))
    case Reading(t) =>
      if !StreamOf(r, t).grouped then (r, Crashed)
      else
        var (read, reply) := Xreadgroup(r, t);
        (read,
         if reply.None? then Popping
         else Scheduling(t, Some(Message(t, reply.value.0, reply.value.1, 1))))
    case DeadLettering(m) => (XaddDlq(r, DeadLetterFields(m)), Acking(m, true))
    case Acking(m, _) => (Xack(r, m.tenant, m.id), Idle)
    case Idle => (r, pc)
    case Holding(_) => (r, pc)
    case Crashed => (r, pc)
  }

  function At(s: State, i: nat, pc: Pc): State
    requires i < |s.procs|
  {
    s.(procs := s.procs[i := pc])
  }

  function Step(s: State, e: Event, maxDeliveries: int): State {
    if e.i >= |s.procs| then s
    else
      var pc := s.procs[e.i];
      match e
      case StartEnqueue(i, t, p) => if pc.Idle? then At(s, i, Grouping(t, p)) else s
      case StartClaim(i) => if pc.Idle? then At(s, i, Popping) else s
      case HandlerSucceeds(i) => if pc.Holding? then At(s, i, Acking(pc.m, false)) else s
      case HandlerFails(i) =>
        if !pc.Holding? then s
        else if pc.m.deliveryCount >= maxDeliveries then At(s, i, DeadLettering(pc.m))
        else At(s, i, Idle)
      case Advance(i) =>
        var (r, next) := Command(s.redis, pc);
        State(r, s.procs[i := next], if pc.Acking? then s.log + [Resolution(pc.m, pc.dead)] else s.log)
  }

  function Run(s: State, es: seq<Event>, maxDeliveries: int): State
    decreases |es|
  {
    if es == [] then s else Run(Step(s, es[0], maxDeliveries), es[1..], maxDeliveries)
  }

  function Start(callers: nat): State {
    State(EMPTY, seq(callers, _ => Idle), [])
  }

  // ---------- Rotation accounting, for any number of enqueuers and consumers ----------

  /** Between LPOP and SREM of t, or between a successful SADD of t and its RPUSH. */
  predicate InWindow(pc: Pc, t: TenantId) {
    (pc.Popped? || pc.Pushing?) && pc.t == t
  }

  function Windows(procs: seq<Pc>, t: TenantId): nat {
    if procs == [] then 0 else (if InWindow(procs[0], t) then 1 else 0) + Windows(procs[1..], t)
  }

  lemma {:induction false} WindowsUpdate(procs: seq<Pc>, i: nat, pc: Pc, t: TenantId)
    requires i < |procs|
    ensures Windows(procs[i := pc], t)
         == Windows(procs, t) - (if InWindow(procs[i], t) then 1 else 0) + (if InWindow(pc, t) then 1 else 0)
  {
    if i == 0 {
      assert procs[i := pc][1..] == procs[1..];
    } else {
      assert procs[i := pc][1..] == procs[1..][i - 1 := pc];
      WindowsUpdate(procs[1..], i - 1, pc, t);
    }
  }

  lemma {:induction false} WindowsPositive(procs: seq<Pc>, t: TenantId)
    ensures Windows(procs, t) > 0 <==> exists i :: 0 <= i < |procs| && InWindow(procs[i], t)
  {
    if procs != [] {
      WindowsPositive(procs[1..], t);
      if Windows(procs[1..], t) > 0 {
        var i :| 0 <= i < |procs[1..]| && InWindow(procs[1..][i], t);
        assert InWindow(procs[i + 1], t);
      }
      if exists i :: 0 <= i < |procs| && InWindow(procs[i], t) {
        var i :| 0 <= i < |procs| && InWindow(procs[i], t);
        if i > 0 {
          assert procs[1..][i - 1] == procs[i];
        }
      }
    }
  }

  /** Membership of a tenant counts its occurrences in the list plus the callers that are moving it. */
  ghost predicate AccountedFor(s: State, t: TenantId) {
    (if t in s.redis.members then 1 else 0) == multiset(s.redis.rotation)[t] + Windows(s.procs, t)
  }

  ghost predicate Accounting(s: State) {
    forall t :: AccountedFor(s, t)
  }

  function One(b: bool): int {
    if b then 1 else 0
  }

  /** A caller's share of the account: membership less the places where t is. */
  ghost function Balance(r: Redis, pc: Pc, t: TenantId): int {
    One(t in r.members) - multiset(r.rotation)[t] - One(InWindow(pc, t))
  }

  /** Only SADD, RPUSH, LPOP and SREM touch the rotation structures. */
  predicate TouchesRotation(pc: Pc) {
    pc.Scheduling? || pc.Pushing? || pc.Popping? || pc.Popped?
  }

  lemma OtherCommandsLeaveRotation(r: Redis, pc: Pc)
    requires !TouchesRotation(pc)
    ensures var (r', next) := Command(r, pc);
            && r'.rotation == r.rotation && r'.members == r.members
            && !next.Popped? && !next.Pushing?
  {
  }

  lemma PoppingKeepsBalance(r: Redis, t: TenantId)
    ensures Balance(Command(r, Popping).0, Command(r, Popping).1, t) == Balance(r, Popping, t)
  {
    if r.rotation != [] {
      assert r.rotation == [r.rotation[0]] + r.rotation[1..];
    }
  }

  lemma PushingKeepsBalance(r: Redis, pc: Pc, t: TenantId)
    requires pc.Pushing?
    ensures Balance(Command(r, pc).0, Command(r, pc).1, t) == Balance(r, pc, t)
  {
  }

  lemma MembershipKeepsBalance(r: Redis, pc: Pc, t: TenantId)
    requires pc.Scheduling? || (pc.Popped? && pc.t in r.members)
    ensures Balance(Command(r, pc).0, Command(r, pc).1, t) == Balance(r, pc, t)
  {
  }

  lemma CommandKeepsBalance(r: Redis, pc: Pc, t: TenantId)
    requires pc.Popped? ==> pc.t in r.members
    ensures Balance(Command(r, pc).0, Command(r, pc).1, t) == Balance(r, pc, t)
  {
    if !TouchesRotation(pc) {
      OtherCommandsLeaveRotation(r, pc);
    } else if pc.Popping? {
      PoppingKeepsBalance(r, t);
    } else if pc.Pushing? {
      PushingKeepsBalance(r, pc, t);
    } else {
      MembershipKeepsBalance(r, pc, t);
    }
  }

  lemma AccountingStep(s: State, e: Event, maxDeliveries: int)
    requires Accounting(s)
    ensures Accounting(Step(s, e, maxDeliveries))
  {
    if e.i < |s.procs| {
      var pc, s' := s.procs[e.i], Step(s, e, maxDeliveries);
      if pc.Popped? {
        WindowsPositive(s.procs, pc.t);
        assert AccountedFor(s, pc.t);
      }
      forall t
        ensures AccountedFor(s', t)
      {
        assert AccountedFor(s, t);
        WindowsUpdate(s.procs, e.i, s'.procs[e.i], t);
        if e.Advance? {
          CommandKeepsBalance(s.redis, pc, t);
        }
      }
    }
  }

  /** In every reachable state, with any callers in any roles, the count holds; so the rotation list never
      repeats a tenant and never lists one that is not a member. */
  lemma {:induction false} RotationAccounting(s: State, es: seq<Event>, maxDeliveries: int)
    requires Accounting(s)
    ensures var r := Run(s, es, maxDeliveries);
            && Accounting(r)
            && (forall i, j :: 0 <= i < j < |r.redis.rotation| ==> r.redis.rotation[i] != r.redis.rotation[j])
            && (forall t <- r.redis.rotation :: t in r.redis.members)
    decreases |es|
  {
    if es == [] {
      NoRepeats(s);
    } else {
      AccountingStep(s, es[0], maxDeliveries);
      RotationAccounting(Step(s, es[0], maxDeliveries), es[1..], maxDeliveries);
    }
  }

  lemma NoRepeats(s: State)
    requires Accounting(s)
    ensures forall i, j :: 0 <= i < j < |s.redis.rotation| ==> s.redis.rotation[i] != s.redis.rotation[j]
    ensures forall t <- s.redis.rotation :: t in s.redis.members
  {
    var q := s.redis.rotation;
    forall i, j | 0 <= i < j < |q|
      ensures q[i] != q[j]
    {
      assert AccountedFor(s, q[i]);
      assert q == q[..i] + [q[i]] + q[i + 1..];
      assert q[i + 1..][j - i - 1] == q[j];
      assert multiset(q) == multiset(q[..i]) + multiset{q[i]} + multiset(q[i + 1..]);
      assert multiset(q[i + 1..])[q[j]] >= 1;
    }
    forall t | t in q
      ensures t in s.redis.members
    {
      assert AccountedFor(s, t);
      assert t in multiset(q);
    }
  }

  lemma {:induction false} NobodyInWindow(procs: seq<Pc>, t: TenantId)
    requires forall i :: 0 <= i < |procs| ==> procs[i].Idle?
    ensures Windows(procs, t) == 0
  {
    WindowsPositive(procs, t);
  }

  lemma StartAccounted(callers: nat)
    ensures Accounting(Start(callers))
  {
    forall t
      ensures AccountedFor(Start(callers), t)
    {
      NobodyInWindow(Start(callers).procs, t);
    }
  }

  // ---------- Fairness ----------

  /** The tenants popped, and the tenants pushed, along a run, in order. */
  function PopOf(s: State, e: Event): seq<TenantId> {
    if e.Advance? && e.i < |s.procs| && s.procs[e.i].Popping? && s.redis.rotation != []
    then [s.redis.rotation[0]] else []
  }

  function PushOf(s: State, e: Event): seq<TenantId> {
    if e.Advance? && e.i < |s.procs| && s.procs[e.i].Pushing? then [s.procs[e.i].t] else []
  }

  function Pops(s: State, es: seq<Event>, maxDeliveries: int): seq<TenantId>
    decreases |es|
  {
    if es == [] then [] else PopOf(s, es[0]) + Pops(Step(s, es[0], maxDeliveries), es[1..], maxDeliveries)
  }

  function Pushes(s: State, es: seq<Event>, maxDeliveries: int): seq<TenantId>
    decreases |es|
  {
    if es == [] then [] else PushOf(s, es[0]) + Pushes(Step(s, es[0], maxDeliveries), es[1..], maxDeliveries)
  }

  lemma RotationStep(s: State, e: Event, maxDeliveries: int)
    ensures PopOf(s, e) + Step(s, e, maxDeliveries).redis.rotation == s.redis.rotation + PushOf(s, e)
  {
    if e.Advance? && e.i < |s.procs| {
      var pc := s.procs[e.i];
      if pc.Popping? && s.redis.rotation != [] {
        assert s.redis.rotation == [s.redis.rotation[0]] + s.redis.rotation[1..];
      }
    }
  }

  lemma Splice(pop: seq<TenantId>, now: seq<TenantId>, was: seq<TenantId>, push: seq<TenantId>,
               pops: seq<TenantId>, last: seq<TenantId>, pushes: seq<TenantId>)
    requires pop + now == was + push
    requires pops + last == now + pushes
    ensures (pop + pops) + last == was + (push + pushes)
  {
    assert (pop + pops) + last == pop + (pops + last);
    assert pop + (now + pushes) == (pop + now) + pushes;
    assert (was + push) + pushes == was + (push + pushes);
  }

  /** The rotation is a first-in first-out queue under every interleaving. */
  lemma {:induction false} RotationIsFifo(s: State, es: seq<Event>, maxDeliveries: int)
    ensures Pops(s, es, maxDeliveries) + Run(s, es, maxDeliveries).redis.rotation
         == s.redis.rotation + Pushes(s, es, maxDeliveries)
    decreases |es|
  {
    if es != [] {
      var s' := Step(s, es[0], maxDeliveries);
      RotationStep(s, es[0], maxDeliveries);
      RotationIsFifo(s', es[1..], maxDeliveries);
      Splice(PopOf(s, es[0]), s'.redis.rotation, s.redis.rotation, PushOf(s, es[0]),
             Pops(s', es[1..], maxDeliveries), Run(s', es[1..], maxDeliveries).redis.rotation,
             Pushes(s', es[1..], maxDeliveries));
    }
  }

  /** A tenant at position i of the rotation is the (i+1)-th popped from then on, and before that pop no
      tenant is popped twice, whatever the backlogs and whoever else enqueues, claims, acknowledges or fails. */
  lemma Fairness(s: State, es: seq<Event>, i: nat, maxDeliveries: int)
    requires Accounting(s)
    requires i < |s.redis.rotation|
    ensures var pops := Pops(s, es, maxDeliveries);
            && (|pops| > i ==> pops[i] == s.redis.rotation[i])
            && (forall a, b :: 0 <= a < b < |pops| && b <= i ==> pops[a] != pops[b])
            && (|pops| <= i ==>
                  && i - |pops| < |Run(s, es, maxDeliveries).redis.rotation|
                  && Run(s, es, maxDeliveries).redis.rotation[i - |pops|] == s.redis.rotation[i])
  {
    RotationIsFifo(s, es, maxDeliveries);
    NoRepeats(s);
    SameFront(Pops(s, es, maxDeliveries), Run(s, es, maxDeliveries).redis.rotation, s.redis.rotation,
              Pushes(s, es, maxDeliveries), i);
  }

  lemma SameFront(pops: seq<TenantId>, last: seq<TenantId>, first: seq<TenantId>, pushes: seq<TenantId>, i: nat)
    requires pops + last == first + pushes && i < |first|
    ensures forall a :: 0 <= a < |pops| && a <= i ==> pops[a] == first[a]
    ensures |pops| <= i ==> i - |pops| < |last| && last[i - |pops|] == first[i]
  {
    forall a | 0 <= a < |pops| && a <= i
      ensures pops[a] == first[a]
    {
      assert (pops + last)[a] == pops[a] && (first + pushes)[a] == first[a];
    }
    assert (first + pushes)[i] == first[i];
    assert |pops| <= i ==> (pops + last)[i] == last[i - |pops|];
  }
}
