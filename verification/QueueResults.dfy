/** The ingestion queue's promises, for every run from an empty Redis with one consumer and any enqueuers. */
module QueueResults {
  import opened Collections
  import opened RedisCommands
  import opened IngestionQueue
  import opened QueueMachine
  import opened QueueSafety

  /** s is reached by some run of the worker: any number of callers, caller 0 the only consumer. */
  ghost predicate Reachable(s: State, maxDeliveries: int) {
    exists callers: nat, es: seq<Event> ::
      callers > 0 && ClaimsByConsumerOnly(es) && s == Run(Start(callers), es, maxDeliveries)
  }

  lemma ReachableInv(s: State, maxDeliveries: int)
    requires Reachable(s, maxDeliveries)
    ensures Inv(s, maxDeliveries)
  {
    var callers: nat, es: seq<Event> :|
      callers > 0 && ClaimsByConsumerOnly(es) && s == Run(Start(callers), es, maxDeliveries);
    InvStart(callers, maxDeliveries);
    InvRun(Start(callers), es, maxDeliveries);
  }

  /** No lost wake-up: a tenant with an undelivered or unacknowledged message is in the rotation list, or in the
      consumer's hands inside claim_next, or owed a push by a running schedule. No command ever meets a missing
      consumer group. */
  lemma NeverLosesWakeup(s: State, t: TenantId, maxDeliveries: int)
    requires Reachable(s, maxDeliveries)
    ensures HasWork(s.redis, t) ==>
              || t in s.redis.rotation
              || exists i :: 0 <= i < |s.procs| && Owes(s.procs[i], t)
    ensures forall i :: 0 <= i < |s.procs| ==> s.procs[i] != Crashed
  {
    ReachableInv(s, maxDeliveries);
    if HasWork(s.redis, t) {
      assert Covered(s, t);
    }
  }

  ghost predicate Quiescent(s: State) {
    forall i :: 0 <= i < |s.procs| ==> s.procs[i].Idle?
  }

  /** With no call in progress the reachable state is at rest: QueueDrains applies to it. */
  lemma QuiescentIsAtRest(s: State, maxDeliveries: int)
    requires Reachable(s, maxDeliveries) && Quiescent(s)
    ensures AtRest(s.redis, maxDeliveries)
  {
    ReachableInv(s, maxDeliveries);
    NoRepeats(s);
    forall t
      ensures t in s.redis.members <==> t in s.redis.rotation
      ensures HasWork(s.redis, t) ==> t in s.redis.rotation
      ensures t in s.redis.streams ==>
                RestingStream(s.redis.streams[t], maxDeliveries) && StreamOk(s.redis.streams[t])
    {
      assert StreamInv(StreamOf(s.redis, t), ResolvedIds(s.log, t), HoldsFor(s.procs[0], t), maxDeliveries);
      NobodyInWindow(s.procs, t);
      assert AccountedFor(s, t);
      assert t in multiset(s.redis.rotation) <==> t in s.redis.rotation;
      if HasWork(s.redis, t) {
        assert Covered(s, t);
      }
    }
  }

  /** The number of messages enqueued for t and not yet acknowledged or dead-lettered. */
  ghost function TrueDepths(s: State, tenants: set<TenantId>): map<TenantId, int> {
    map t | t in tenants :: |StreamOf(s.redis, t).entries| - |ResolvedIds(s.log, t)|
  }

  /** At quiescence get_stats' total_queued is the number of messages enqueued and not yet resolved, over all
      tenants that ever enqueued. */
  lemma StatsAreExact(s: State, maxDeliveries: int)
    requires Reachable(s, maxDeliveries) && Quiescent(s)
    ensures Backlog(s.redis) == SumOver(TrueDepths(s, s.redis.streams.Keys), s.redis.streams.Keys)
  {
    ReachableInv(s, maxDeliveries);
    QuiescentIsAtRest(s, maxDeliveries);
    var all, depths := s.redis.streams.Keys, TrueDepths(s, s.redis.streams.Keys);
    var counted := Depths(s.redis, s.redis.members);
    forall t
      ensures StreamOf(s.redis, t).grouped ==>
                Unresolved(s.redis, t) == |StreamOf(s.redis, t).entries| - |ResolvedIds(s.log, t)|
      ensures t in all && t !in s.redis.members ==> depths[t] == 0
      ensures t in s.redis.members ==> t in all && StreamOf(s.redis, t).grouped
    {
      assert StreamInv(StreamOf(s.redis, t), ResolvedIds(s.log, t), HoldsFor(s.procs[0], t), maxDeliveries);
      var st := StreamOf(s.redis, t);
      if st.pending != map[] {
        assert |st.pending| == |st.pending.Keys| == 1;
      }
      if t in all && t !in s.redis.members {
        assert !HasWork(s.redis, t);
      }
    }
    SumOverCongruent(counted, depths, s.redis.members);
    SumOverDropZeros(depths, all, s.redis.members);
  }

  datatype Fate = Undelivered | Pending | Acked | DeadLettered

  ghost predicate HasFate(s: State, t: TenantId, id: MessageId, fate: Fate) {
    match fate
    case Undelivered => id >= StreamOf(s.redis, t).cursor
    case Pending => id in StreamOf(s.redis, t).pending
    case Acked => exists e <- s.log :: e.m.tenant == t && e.m.id == id && !e.dead
    case DeadLettered => exists e <- s.log :: e.m.tenant == t && e.m.id == id && e.dead
  }

  lemma {:induction false} ResolvedIdsMember(log: seq<Resolution>, t: TenantId, id: MessageId)
    ensures id in ResolvedIds(log, t) <==> exists e <- log :: e.m.tenant == t && e.m.id == id
  {
    if log != [] {
      var last := log[|log| - 1];
      assert log == log[..|log| - 1] + [last];
      ResolvedIdsMember(log[..|log| - 1], t, id);
    }
  }

  /** A resolution of message id at position k of the log is at position id among its tenant's resolutions. */
  lemma {:induction false} ResolvedOnce(log: seq<Resolution>, j: nat, k: nat)
    requires j < k < |log| && log[j].m.tenant == log[k].m.tenant
    requires forall n :: 0 <= n < |ResolvedIds(log, log[k].m.tenant)| ==> ResolvedIds(log, log[k].m.tenant)[n] == n
    ensures log[j].m.id != log[k].m.id
    decreases |log|
  {
    var t, init := log[k].m.tenant, log[..|log| - 1];
    var all, before := ResolvedIds(log, t), ResolvedIds(init, t);
    assert forall n :: 0 <= n < |before| ==> before[n] == all[n];
    if k < |log| - 1 {
      ResolvedOnce(init, j, k);
    } else {
      ResolvedIdsMember(init, t, log[j].m.id);
      assert log[j] in init;
      assert all[|before|] == log[k].m.id;
    }
  }

  /** Conservation: every message ever enqueued is in exactly one of undelivered, pending, acknowledged and
      dead-lettered, and is resolved at most once. */
  lemma Conservation(s: State, t: TenantId, id: MessageId, maxDeliveries: int)
    requires Reachable(s, maxDeliveries)
    requires id < |StreamOf(s.redis, t).entries|
    ensures exists fate :: HasFate(s, t, id, fate) && forall other :: HasFate(s, t, id, other) ==> other == fate
    ensures forall j, k :: 0 <= j < k < |s.log| && s.log[j].m.tenant == t && s.log[k].m.tenant == t ==>
                             s.log[j].m.id != s.log[k].m.id
  {
    ReachableInv(s, maxDeliveries);
    var st, resolved := StreamOf(s.redis, t), ResolvedIds(s.log, t);
    assert StreamInv(st, resolved, HoldsFor(s.procs[0], t), maxDeliveries);
    ResolvedIdsMember(s.log, t, id);
    assert id in resolved <==> id < |resolved| by {
      if id < |resolved| {
        assert resolved[id] == id;
      }
    }
    forall j, k | 0 <= j < k < |s.log| && s.log[j].m.tenant == t && s.log[k].m.tenant == t
      ensures s.log[j].m.id != s.log[k].m.id
    {
      ResolvedOnce(s.log, j, k);
    }
    if id >= st.cursor {
      assert HasFate(s, t, id, Undelivered);
      assert forall other :: HasFate(s, t, id, other) ==> other == Undelivered;
    } else if id in st.pending {
      assert HasFate(s, t, id, Pending);
      assert forall other :: HasFate(s, t, id, other) ==> other == Pending;
    } else {
      assert id in resolved;
      var e :| e in s.log && e.m.tenant == t && e.m.id == id;
      var fate := if e.dead then DeadLettered else Acked;
      assert HasFate(s, t, id, fate);
      ResolvedFate(s, t, id, e);
    }
  }

  lemma ResolvedFate(s: State, t: TenantId, id: MessageId, e: Resolution)
    requires e in s.log && e.m.tenant == t && e.m.id == id
    requires id < StreamOf(s.redis, t).cursor && id !in StreamOf(s.redis, t).pending
    requires forall j, k :: 0 <= j < k < |s.log| && s.log[j].m.tenant == t && s.log[k].m.tenant == t ==>
                              s.log[j].m.id != s.log[k].m.id
    ensures forall other :: HasFate(s, t, id, other) ==> other == if e.dead then DeadLettered else Acked
  {
    forall other | HasFate(s, t, id, other)
      ensures other == if e.dead then DeadLettered else Acked
    {
      var f :| f in s.log && f.m.tenant == t && f.m.id == id && f.dead == other.DeadLettered?;
      var j :| 0 <= j < |s.log| && s.log[j] == e;
      var k :| 0 <= k < |s.log| && s.log[k] == f;
      assert j == k;
    }
  }

  /** Order and at-most-one: a tenant's messages are resolved in the order they were enqueued, and at most the
      next one is pending. */
  lemma FifoPerTenant(s: State, t: TenantId, maxDeliveries: int)
    requires Reachable(s, maxDeliveries)
    ensures var resolved := ResolvedIds(s.log, t);
            && (forall k :: 0 <= k < |resolved| ==> resolved[k] == k)
            && forall id <- StreamOf(s.redis, t).pending :: id == |resolved|
  {
    ReachableInv(s, maxDeliveries);
    assert StreamInv(StreamOf(s.redis, t), ResolvedIds(s.log, t), HoldsFor(s.procs[0], t), maxDeliveries);
  }

  /** No message is delivered more than max_deliveries times (once, if the limit is below one), and a message is
      dead-lettered only when it used them all. */
  lemma DeliveriesBounded(s: State, t: TenantId, maxDeliveries: int)
    requires Reachable(s, maxDeliveries)
    ensures forall id <- StreamOf(s.redis, t).pending ::
              1 <= StreamOf(s.redis, t).pending[id] <= AllowedDeliveries(maxDeliveries)
    ensures forall e <- s.log ::
              && 1 <= e.m.deliveryCount <= AllowedDeliveries(maxDeliveries)
              && (e.dead ==> e.m.deliveryCount >= maxDeliveries)
              && e.m.id < |StreamOf(s.redis, e.m.tenant).entries|
              && e.m.payload == StreamOf(s.redis, e.m.tenant).entries[e.m.id]
  {
    ReachableInv(s, maxDeliveries);
    assert StreamInv(StreamOf(s.redis, t), ResolvedIds(s.log, t), HoldsFor(s.procs[0], t), maxDeliveries);
    forall e | e in s.log
      ensures ResolutionOk(s.redis, e, maxDeliveries)
    {
    }
  }

  /** The dead-letter stream is exactly the dead-lettered messages in order of resolution, plus the one whose
      XACK is still to come. */
  lemma DeadLetterStreamIsExact(s: State, maxDeliveries: int)
    requires Reachable(s, maxDeliveries)
    ensures |s.procs| > 0 && s.redis.dlq == DeadFields(s.log) + DeadInFlight(s.procs[0])
  {
    ReachableInv(s, maxDeliveries);
  }

  /** The payload has none of the bookkeeping fields, or has them with the values fail() writes. */
  predicate Unclashing(m: Message) {
    && ("tenant_id" in m.payload ==> m.payload["tenant_id"] == TenantText(m.tenant))
    && ("original_message_id" in m.payload ==> m.payload["original_message_id"] == IdText(m.id))
    && ("delivery_count" in m.payload ==> m.payload["delivery_count"] == CountText(m.deliveryCount))
  }

  /** A dead-letter entry contains the whole payload exactly when each bookkeeping field that the payload already has
      holds the value written over it; every other field is always kept, and no field is added but these three. */
  lemma DeadLetterKeepsPayload(m: Message)
    ensures var fields := DeadLetterFields(m);
            && fields - RESERVED_FIELDS == m.payload - RESERVED_FIELDS
            && fields.Keys == m.payload.Keys + RESERVED_FIELDS
            && (m.payload.Items <= fields.Items <==> Unclashing(m))
  {
    var fields := DeadLetterFields(m);
    if Unclashing(m) {
      forall item | item in m.payload.Items
        ensures item in fields.Items
      {
        assert fields[item.0] == item.1;
      }
    }
    if m.payload.Items <= fields.Items {
      forall f | f in m.payload.Keys * RESERVED_FIELDS
        ensures m.payload[f] == fields[f]
      {
        assert (f, m.payload[f]) in m.payload.Items;
      }
    }
  }

  /** A payload that names its own tenant loses that field. */
  lemma ClashingFieldIsLost(t: TenantId, id: MessageId, count: nat)
    ensures var m := Message(t, id, map["tenant_id" := Text("acme")], count);
            DeadLetterFields(m)["tenant_id"] == TenantText(t) && !(m.payload.Items <= DeadLetterFields(m).Items)
  {
    DeadLetterKeepsPayload(Message(t, id, map["tenant_id" := Text("acme")], count));
  }

  lemma {:induction false} DeadFieldsAre(log: seq<Resolution>, entry: Payload)
    ensures entry in DeadFields(log) <==> exists e <- log :: e.dead && DeadLetterFields(e.m) == entry
  {
    if log != [] {
      var last := log[|log| - 1];
      assert log == log[..|log| - 1] + [last];
      DeadFieldsAre(log[..|log| - 1], entry);
    }
  }

  /** In every reachable state: each message resolved as dead has its entry in the dead-letter stream, with every field
      of the payload that was enqueued for it, the three reserved names aside ... */
  lemma DeadLettersKeepEnqueued(s: State, e: Resolution, maxDeliveries: int)
    requires Reachable(s, maxDeliveries) && e in s.log && e.dead
    ensures e.m.id < |StreamOf(s.redis, e.m.tenant).entries|
    ensures var enqueued, entry := StreamOf(s.redis, e.m.tenant).entries[e.m.id], DeadLetterFields(e.m);
            && entry in s.redis.dlq && entry - RESERVED_FIELDS == enqueued - RESERVED_FIELDS
            && (enqueued.Keys !! RESERVED_FIELDS ==> enqueued.Items <= entry.Items)
  {
    DeliveriesBounded(s, e.m.tenant, maxDeliveries);
    DeadLetterStreamIsExact(s, maxDeliveries);
    DeadFieldsAre(s.log, DeadLetterFields(e.m));
    DeadLetterKeepsPayload(e.m);
  }

  /** ... and the stream has no entry but those of enqueued messages. */
  lemma DeadLettersWereEnqueued(s: State, entry: Payload, maxDeliveries: int)
    returns (m: Message)
    requires Reachable(s, maxDeliveries) && entry in s.redis.dlq
    ensures m.id < |StreamOf(s.redis, m.tenant).entries| && m.payload == StreamOf(s.redis, m.tenant).entries[m.id]
    ensures entry == DeadLetterFields(m) && entry - RESERVED_FIELDS == m.payload - RESERVED_FIELDS
  {
    m := DeadLetterSource(s, entry, maxDeliveries);
    DeadLetterKeepsPayload(m);
  }

  lemma DeadLetterSource(s: State, entry: Payload, maxDeliveries: int)
    returns (m: Message)
    requires Reachable(s, maxDeliveries) && entry in s.redis.dlq
    ensures m.id < |StreamOf(s.redis, m.tenant).entries| && m.payload == StreamOf(s.redis, m.tenant).entries[m.id]
    ensures entry == DeadLetterFields(m)
  {
    ReachableInv(s, maxDeliveries);
    DeadLetterStreamIsExact(s, maxDeliveries);
    DeadFieldsAre(s.log, entry);
    if entry in DeadFields(s.log) {
      var e :| e in s.log && e.dead && DeadLetterFields(e.m) == entry;
      m := e.m;
      DeliveriesBounded(s, m.tenant, maxDeliveries);
    } else {
      m := s.procs[0].m;
      assert IsPending(s.redis, m);
    }
  }

  // ---------- The interleaved machine refines the operations ----------

  function Solo(n: nat, i: nat): (es: seq<Event>)
    ensures |es| == n
  {
    seq(n, _ => Advance(i))
  }

  lemma {:induction false} RunAppend(s: State, a: seq<Event>, b: seq<Event>, maxDeliveries: int)
    ensures Run(s, a + b, maxDeliveries) == Run(Run(s, a, maxDeliveries), b, maxDeliveries)
    decreases |a|
  {
    if a == [] {
      assert a + b == b;
    } else {
      assert (a + b)[1..] == a[1..] + b;
      RunAppend(Step(s, a[0], maxDeliveries), a[1..], b, maxDeliveries);
    }
  }

  /** One uninterrupted command. */
  lemma SoloStep(s: State, n: nat, i: nat, maxDeliveries: int)
    ensures Run(s, Solo(n + 1, i), maxDeliveries) == Run(Step(s, Advance(i), maxDeliveries), Solo(n, i), maxDeliveries)
  {
    assert Solo(n + 1, i)[1..] == Solo(n, i);
  }

  ghost predicate Reaches(s: State, i: nat, goal: State, maxDeliveries: int) {
    exists n: nat :: Run(s, Solo(n, i), maxDeliveries) == goal
  }

  lemma ReachesOneMore(s: State, i: nat, goal: State, maxDeliveries: int)
    requires Reaches(Step(s, Advance(i), maxDeliveries), i, goal, maxDeliveries)
    ensures Reaches(s, i, goal, maxDeliveries)
  {
    var n: nat :| Run(Step(s, Advance(i), maxDeliveries), Solo(n, i), maxDeliveries) == goal;
    SoloStep(s, n, i, maxDeliveries);
  }

  lemma ReachesSelf(s: State, i: nat, maxDeliveries: int)
    ensures Reaches(s, i, s, maxDeliveries)
  {
    assert Run(s, Solo(0, i), maxDeliveries) == s;
  }

  function Put(s: State, i: nat, r: Redis, pc: Pc): State
    requires i < |s.procs|
  {
    State(r, s.procs[i := pc], s.log)
  }

  lemma SoloSchedule(s: State, i: nat, maxDeliveries: int)
    requires i < |s.procs| && s.procs[i].Scheduling?
    ensures Reaches(s, i, Put(s, i, Schedule(s.redis, s.procs[i].t), Done(s.procs[i].held)), maxDeliveries)
  {
    var goal := Put(s, i, Schedule(s.redis, s.procs[i].t), Done(s.procs[i].held));
    var s1 := Step(s, Advance(i), maxDeliveries);
    ReachesSelf(goal, i, maxDeliveries);
    if s1.procs[i].Pushing? {
      assert Step(s1, Advance(i), maxDeliveries) == goal;
      ReachesOneMore(s1, i, goal, maxDeliveries);
    }
    ReachesOneMore(s, i, goal, maxDeliveries);
  }

  /** An enqueue that nobody interrupts does what EnqueueMessage does. */
  lemma SoloEnqueue(s: State, i: nat, maxDeliveries: int)
    requires i < |s.procs| && s.procs[i].Grouping?
    ensures Reaches(s, i, Put(s, i, Enqueue(s.redis, s.procs[i].t, s.procs[i].p), Idle), maxDeliveries)
  {
    var goal := Put(s, i, Enqueue(s.redis, s.procs[i].t, s.procs[i].p), Idle);
    var s1 := Step(s, Advance(i), maxDeliveries);
    var s2 := Step(s1, Advance(i), maxDeliveries);
    SoloSchedule(s2, i, maxDeliveries);
    assert s2.procs[i] == Scheduling(s.procs[i].t, None);
    assert Put(s2, i, Schedule(s2.redis, s.procs[i].t), Idle) == goal;
    ReachesOneMore(s1, i, goal, maxDeliveries);
    ReachesOneMore(s, i, goal, maxDeliveries);
  }

  /** A claim that nobody interrupts does what Claim does. */
  lemma {:induction false} SoloClaim(s: State, i: nat, maxDeliveries: int)
    requires i < |s.procs| && s.procs[i].Popping? && WellFormed(s.redis)
    ensures var (r, m) := ClaimNext(s.redis); Reaches(s, i, Put(s, i, r, Done(m)), maxDeliveries)
    decreases |s.redis.rotation|, 0
  {
    var goal := Put(s, i, ClaimNext(s.redis).0, Done(ClaimNext(s.redis).1));
    var s1 := Step(s, Advance(i), maxDeliveries);
    if s.redis.rotation == [] {
      assert s1 == goal;
      ReachesSelf(goal, i, maxDeliveries);
    } else {
      var t := s.redis.rotation[0];
      var s2 := Step(s1, Advance(i), maxDeliveries);
      assert s2 == Put(s, i, TakeHead(s.redis), Probing(t));
      assert t in s.redis.rotation;
      assert StreamOf(s.redis, t).grouped && StreamOf(s2.redis, t).grouped;
      TakeHeadKeepsWellFormed(s.redis);
      SoloClaimFor(s2, i, goal, maxDeliveries);
      ReachesOneMore(s1, i, goal, maxDeliveries);
    }
    ReachesOneMore(s, i, goal, maxDeliveries);
  }

  lemma SoloResolve(s: State, i: nat, maxDeliveries: int)
    requires i < |s.procs| && s.procs[i].Acking?
    ensures var m, dead := s.procs[i].m, s.procs[i].dead;
            Reaches(s, i, State(Ack(s.redis, m), s.procs[i := Idle], s.log + [Resolution(m, dead)]), maxDeliveries)
  {
    var goal := Step(s, Advance(i), maxDeliveries);
    ReachesSelf(goal, i, maxDeliveries);
    ReachesOneMore(s, i, goal, maxDeliveries);
  }

  /** A handler that returns, and nobody interrupts: what Acknowledge does. */
  lemma SoloAck(s: State, i: nat, maxDeliveries: int)
    requires i < |s.procs| && s.procs[i].Holding?
    ensures var m := s.procs[i].m;
            Reaches(Step(s, HandlerSucceeds(i), maxDeliveries), i,
                    State(Ack(s.redis, m), s.procs[i := Idle], s.log + [Resolution(m, false)]), maxDeliveries)
  {
    var s1 := Step(s, HandlerSucceeds(i), maxDeliveries);
    SoloResolve(s1, i, maxDeliveries);
    assert s1.procs[i := Idle] == s.procs[i := Idle];
  }

  /** A handler that raises, and nobody interrupts: what Reject does. */
  lemma SoloReject(s: State, i: nat, maxDeliveries: int)
    requires i < |s.procs| && s.procs[i].Holding?
    ensures var m := s.procs[i].m; var (r, dead) := Fail(s.redis, m, maxDeliveries);
            Reaches(Step(s, HandlerFails(i), maxDeliveries), i,
                    State(r, s.procs[i := Idle], if dead then s.log + [Resolution(m, true)] else s.log),
                    maxDeliveries)
  {
    var s1 := Step(s, HandlerFails(i), maxDeliveries);
    if s1.procs[i].Idle? {
      ReachesSelf(s1, i, maxDeliveries);
    } else {
      var s2 := Step(s1, Advance(i), maxDeliveries);
      assert s2.procs[i] == Acking(s.procs[i].m, true) && s2.log == s.log;
      SoloResolve(s2, i, maxDeliveries);
      assert s2.procs[i := Idle] == s.procs[i := Idle];
      ReachesOneMore(s1, i, State(Ack(s2.redis, s.procs[i].m), s.procs[i := Idle],
                                  s.log + [Resolution(s.procs[i].m, true)]), maxDeliveries);
    }
  }

  lemma {:induction false} SoloClaimFor(s: State, i: nat, goal: State, maxDeliveries: int)
    requires i < |s.procs| && s.procs[i].Probing? && WellFormed(s.redis)
    requires s.procs[i].t in s.redis.streams && s.redis.streams[s.procs[i].t].grouped
    requires var t := s.procs[i].t; var (claimed, m) := ClaimFor(s.redis, t);
             goal == if m.Some? then Put(s, i, Schedule(claimed, t), Holding(m.value))
                     else Put(s, i, ClaimNext(claimed).0, Done(ClaimNext(claimed).1))
    ensures Reaches(s, i, goal, maxDeliveries)
    decreases |s.redis.rotation|, 1
  {
    var t := s.procs[i].t;
    ClaimForServes(s.redis, t);
    var claimed, m := ClaimFor(s.redis, t).0, ClaimFor(s.redis, t).1;
    var s1 := Step(s, Advance(i), maxDeliveries);
    var s2 := Step(s1, Advance(i), maxDeliveries);
    if HasWork(s.redis, t) {
      assert s2 == Put(s, i, claimed, Scheduling(t, m));
      SoloSchedule(s2, i, maxDeliveries);
      assert Put(s2, i, Schedule(claimed, t), Holding(m.value)) == goal;
    } else {
      assert s2 == Put(s, i, s.redis, Popping);
      SoloClaim(s2, i, maxDeliveries);
      assert Put(s2, i, ClaimNext(claimed).0, Done(ClaimNext(claimed).1)) == goal;
    }
    ReachesOneMore(s1, i, goal, maxDeliveries);
    ReachesOneMore(s, i, goal, maxDeliveries);
  }
}
