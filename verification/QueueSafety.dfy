/** What the ingestion queue guarantees while one consumer runs beside any number of enqueuers: caller 0 is the
    consumer, as in the worker process. */
module QueueSafety {
  import opened Collections
  import opened RedisCommands
  import opened IngestionQueue
  import opened QueueMachine

  // ---------- The invariant ----------

  function Held(pc: Pc): Option<Message> {
    match pc
    case Scheduling(_, held) => held
    case Pushing(_, held) => held
    case Holding(m) => Some(m)
    case DeadLettering(m) => Some(m)
    case Acking(m, _) => Some(m)
    case _ => None
  }

  /** Inside claim_next, or between a claim and its resolution. */
  predicate Consuming(pc: Pc) {
    pc.Popping? || pc.Popped? || pc.Probing? || pc.Reclaiming? || pc.Reading? || Held(pc).Some?
  }

  predicate OneConsumer(procs: seq<Pc>) {
    |procs| > 0 && forall i :: 0 < i < |procs| ==> !Consuming(procs[i])
  }

  /** Only caller 0 ever starts a claim. */
  predicate ClaimsByConsumerOnly(es: seq<Event>) {
    forall e <- es :: e.StartClaim? ==> e.i == 0
  }

  predicate HoldsFor(pc: Pc, t: TenantId) {
    Held(pc).Some? && Held(pc).value.tenant == t
  }

  function ResolvedIds(log: seq<Resolution>, t: TenantId): seq<MessageId> {
    if log == [] then []
    else
      var last := log[|log| - 1];
      ResolvedIds(log[..|log| - 1], t) + if last.m.tenant == t then [last.m.id] else []
  }

  /** One tenant's stream: messages are resolved in the order 0, 1, 2, ... of their enqueueing, at most one more
      is delivered, and it has a delivery left unless the consumer holds it. */
  ghost predicate StreamInv(st: Stream, resolved: seq<MessageId>, held: bool, maxDeliveries: int) {
    && (forall j :: 0 <= j < |resolved| ==> resolved[j] == j)
    && st.cursor <= |st.entries|
    && (st.entries != [] ==> st.grouped)
    && (!st.grouped ==> st.cursor == 0)
    && if st.pending == map[] then st.cursor == |resolved| && !held
       else
         && st.cursor == |resolved| + 1 && st.pending.Keys == {|resolved|}
         && 1 <= st.pending[|resolved|] <= AllowedDeliveries(maxDeliveries)
         && (!held ==> st.pending[|resolved|] < AllowedDeliveries(maxDeliveries))
  }

  ghost predicate StreamsOk(s: State, maxDeliveries: int)
    requires |s.procs| > 0
  {
    forall t :: StreamInv(StreamOf(s.redis, t), ResolvedIds(s.log, t), HoldsFor(s.procs[0], t), maxDeliveries)
  }

  ghost predicate IsPending(r: Redis, m: Message) {
    var st := StreamOf(r, m.tenant);
    && m.id < |st.entries| && m.payload == st.entries[m.id]
    && m.id in st.pending && st.pending[m.id] == m.deliveryCount
  }

  /** What the consumer has read so far is still so. */
  ghost predicate ConsumerOk(r: Redis, pc: Pc, maxDeliveries: int) {
    && (pc.Reclaiming? ==> StreamOf(r, pc.t).pending == map[pc.id := pc.times])
    && (pc.Reading? ==> StreamOf(r, pc.t).pending == map[])
    && ((pc.Scheduling? || pc.Pushing?) && pc.held.Some? ==> pc.held.value.tenant == pc.t)
    && (Held(pc).Some? ==> IsPending(r, Held(pc).value))
    && (pc.DeadLettering? || (pc.Acking? && pc.dead) ==> Held(pc).value.deliveryCount >= maxDeliveries)
  }

  predicate Needs(pc: Pc, t: TenantId) {
    (pc.Adding? || pc.Scheduling? || pc.Pushing? || pc.Popped? || pc.Probing? || pc.Reclaiming? || pc.Reading?)
    && pc.t == t
  }

  /** Every stream that is about to be read or written has its consumer group; so no command fails. */
  ghost predicate GroupsOk(s: State) {
    && (forall t <- s.redis.rotation :: StreamOf(s.redis, t).grouped)
    && (forall i :: 0 <= i < |s.procs| ==> s.procs[i] != Crashed)
    && (forall i, t :: 0 <= i < |s.procs| && Needs(s.procs[i], t) ==> StreamOf(s.redis, t).grouped)
  }

  /** Held by the consumer inside claim_next, or owed a push by a running schedule. */
  predicate Owes(pc: Pc, t: TenantId) {
    (pc.Scheduling? || pc.Pushing? || pc.Popped? || pc.Probing? || pc.Reclaiming? || pc.Reading?) && pc.t == t
  }

  ghost predicate Covered(s: State, t: TenantId) {
    t in s.redis.rotation || exists i :: 0 <= i < |s.procs| && Owes(s.procs[i], t)
  }

  ghost predicate NoLostWakeup(s: State) {
    forall t :: HasWork(s.redis, t) ==> Covered(s, t)
  }

  function DeadFields(log: seq<Resolution>): seq<Payload> {
    if log == [] then []
    else
      var last := log[|log| - 1];
      DeadFields(log[..|log| - 1]) + if last.dead then [DeadLetterFields(last.m)] else []
  }

  /** The dead-letter stream holds the dead-lettered messages, the one being acknowledged right now included. */
  ghost predicate DeadLettersOk(s: State)
    requires |s.procs| > 0
  {
    var pc := s.procs[0];
    s.redis.dlq == DeadFields(s.log) + if pc.Acking? && pc.dead then [DeadLetterFields(pc.m)] else []
  }

  ghost predicate ResolutionOk(r: Redis, e: Resolution, maxDeliveries: int) {
    var st := StreamOf(r, e.m.tenant);
    && e.m.id < st.cursor <= |st.entries| && e.m.payload == st.entries[e.m.id]
    && 1 <= e.m.deliveryCount <= AllowedDeliveries(maxDeliveries)
    && (e.dead ==> e.m.deliveryCount >= maxDeliveries)
  }

  ghost predicate LogOk(s: State, maxDeliveries: int) {
    forall e <- s.log :: ResolutionOk(s.redis, e, maxDeliveries)
  }

  ghost predicate Inv(s: State, maxDeliveries: int) {
    && Accounting(s)
    && OneConsumer(s.procs)
    && StreamsOk(s, maxDeliveries)
    && ConsumerOk(s.redis, s.procs[0], maxDeliveries)
    && GroupsOk(s)
    && NoLostWakeup(s)
    && DeadLettersOk(s)
    && LogOk(s, maxDeliveries)
  }

  // ---------- What one command does ----------

  /** The one tenant whose stream a command may change. */
  function TenantOf(pc: Pc): TenantId {
    match pc
    case Idle => 0
    case Popping => 0
    case Crashed => 0
    case Holding(m) => m.tenant
    case DeadLettering(m) => m.tenant
    case Acking(m, _) => m.tenant
    case Grouping(t, _) => t
    case Adding(t, _) => t
    case Scheduling(t, _) => t
    case Pushing(t, _) => t
    case Popped(t) => t
    case Probing(t) => t
    case Reclaiming(t, _, _) => t
    case Reading(t) => t
  }

  lemma OtherStreamsUntouched(r: Redis, pc: Pc, t: TenantId)
    requires t != TenantOf(pc)
    ensures StreamOf(Command(r, pc).0, t) == StreamOf(r, t)
  {
  }

  predicate TouchesStream(pc: Pc) {
    pc.Grouping? || pc.Adding? || pc.Reclaiming? || pc.Reading? || pc.Acking?
  }

  lemma OtherCommandsLeaveStreams(r: Redis, pc: Pc)
    requires !TouchesStream(pc)
    ensures Command(r, pc).0.streams == r.streams
  {
  }

  lemma OnlyDeadLetteringAddsDlq(r: Redis, pc: Pc)
    ensures Command(r, pc).0.dlq == r.dlq + if pc.DeadLettering? then [DeadLetterFields(pc.m)] else []
  {
  }

  /** Streams only grow: entries, cursor and group never go back. */
  lemma StreamsGrow(r: Redis, pc: Pc, t: TenantId)
    requires !StreamOf(r, t).grouped ==> StreamOf(r, t).cursor == 0
    ensures var st, st' := StreamOf(r, t), StreamOf(Command(r, pc).0, t);
            && st.entries <= st'.entries && st.cursor <= st'.cursor && (st.grouped ==> st'.grouped)
  {
    if t != TenantOf(pc) {
      OtherStreamsUntouched(r, pc, t);
    } else if !TouchesStream(pc) {
      OtherCommandsLeaveStreams(r, pc);
    }
  }

  function LogAfter(log: seq<Resolution>, pc: Pc): seq<Resolution> {
    if pc.Acking? then log + [Resolution(pc.m, pc.dead)] else log
  }

  lemma ResolvedAfter(log: seq<Resolution>, pc: Pc, t: TenantId)
    ensures ResolvedIds(LogAfter(log, pc), t)
         == ResolvedIds(log, t) + if pc.Acking? && pc.m.tenant == t then [pc.m.id] else []
  {
    if pc.Acking? {
      assert LogAfter(log, pc)[..|log|] == log;
    }
  }

  // ---------- Each part of the invariant is kept by each command ----------

  /** The facts about one caller and the tenant of its command that the stream cases below use. */
  ghost predicate Ready(r: Redis, pc: Pc, consumer: bool, maxDeliveries: int) {
    && (consumer ==> ConsumerOk(r, pc, maxDeliveries))
    && (!consumer ==> !Consuming(pc))
    && (forall t :: Needs(pc, t) ==> StreamOf(r, t).grouped)
    && pc != Crashed
  }

  lemma OtherTenantStream(r: Redis, pc: Pc, log: seq<Resolution>, t: TenantId, maxDeliveries: int)
    requires ConsumerOk(r, pc, maxDeliveries)
    requires t != TenantOf(pc)
    ensures var (r', next) := Command(r, pc);
            && StreamOf(r', t) == StreamOf(r, t)
            && ResolvedIds(LogAfter(log, pc), t) == ResolvedIds(log, t)
            && HoldsFor(next, t) == HoldsFor(pc, t)
  {
    OtherStreamsUntouched(r, pc, t);
    ResolvedAfter(log, pc, t);
  }

  lemma EnqueuerKeepsStream(r: Redis, pc: Pc, log: seq<Resolution>, t: TenantId, held: bool, maxDeliveries: int)
    requires !Consuming(pc) && (pc.Adding? ==> StreamOf(r, pc.t).grouped)
    requires StreamInv(StreamOf(r, t), ResolvedIds(log, t), held, maxDeliveries)
    ensures StreamInv(StreamOf(Command(r, pc).0, t), ResolvedIds(LogAfter(log, pc), t), held, maxDeliveries)
    ensures !Consuming(Command(r, pc).1)
  {
    if t != TenantOf(pc) {
      OtherStreamsUntouched(r, pc, t);
    }
  }

  lemma ReclaimKeepsStream(r: Redis, pc: Pc, resolved: seq<MessageId>, maxDeliveries: int)
    requires pc.Reclaiming? && ConsumerOk(r, pc, maxDeliveries)
    requires StreamInv(StreamOf(r, pc.t), resolved, false, maxDeliveries)
    ensures var (r', next) := Command(r, pc);
            && StreamInv(StreamOf(r', pc.t), resolved, true, maxDeliveries)
            && next.Scheduling? && HoldsFor(next, pc.t) && ConsumerOk(r', next, maxDeliveries)
            && next.t == pc.t
  {
    var st := StreamOf(r, pc.t);
    assert pc.id in st.pending && st.pending.Keys == {pc.id} && pc.id == |resolved|;
  }

  lemma ReadKeepsStream(r: Redis, pc: Pc, resolved: seq<MessageId>, maxDeliveries: int)
    requires pc.Reading? && ConsumerOk(r, pc, maxDeliveries) && StreamOf(r, pc.t).grouped
    requires StreamInv(StreamOf(r, pc.t), resolved, false, maxDeliveries)
    ensures var (r', next) := Command(r, pc);
            && StreamInv(StreamOf(r', pc.t), resolved, HoldsFor(next, pc.t), maxDeliveries)
            && ConsumerOk(r', next, maxDeliveries)
            && if HasWork(r, pc.t) then next.Scheduling? && next.t == pc.t else next == Popping
  {
    var st, resolvedCount := StreamOf(r, pc.t), |resolved|;
    if st.cursor < |st.entries| {
      var st' := StreamOf(Command(r, pc).0, pc.t);
      assert st'.pending == map[resolvedCount := 1];
    }
  }

  lemma AckKeepsStream(r: Redis, pc: Pc, log: seq<Resolution>, maxDeliveries: int)
    requires pc.Acking? && ConsumerOk(r, pc, maxDeliveries)
    requires StreamInv(StreamOf(r, pc.m.tenant), ResolvedIds(log, pc.m.tenant), true, maxDeliveries)
    ensures var t := pc.m.tenant;
            StreamInv(StreamOf(Command(r, pc).0, t), ResolvedIds(LogAfter(log, pc), t), false, maxDeliveries)
  {
    var t := pc.m.tenant;
    var st, st' := StreamOf(r, t), StreamOf(Command(r, pc).0, t);
    ResolvedAfter(log, pc, t);
    assert pc.m.id == |ResolvedIds(log, t)|;
    assert st'.pending.Keys == {};
    assert st'.pending == map[];
  }

  lemma ConsumerKeepsStream(r: Redis, pc: Pc, log: seq<Resolution>, t: TenantId, maxDeliveries: int)
    requires Ready(r, pc, true, maxDeliveries)
    requires StreamInv(StreamOf(r, t), ResolvedIds(log, t), HoldsFor(pc, t), maxDeliveries)
    ensures var (r', next) := Command(r, pc);
            StreamInv(StreamOf(r', t), ResolvedIds(LogAfter(log, pc), t), HoldsFor(next, t), maxDeliveries)
  {
    if t != TenantOf(pc) {
      OtherTenantStream(r, pc, log, t, maxDeliveries);
    } else {
      match pc
      case Reclaiming(_, _, _) => ReclaimKeepsStream(r, pc, ResolvedIds(log, t), maxDeliveries);
      case Reading(_) => ReadKeepsStream(r, pc, ResolvedIds(log, t), maxDeliveries);
      case Acking(_, _) => AckKeepsStream(r, pc, log, maxDeliveries);
      case Grouping(_, _) => EnqueuerKeepsStream(r, pc, log, t, false, maxDeliveries);
      case Adding(_, _) => EnqueuerKeepsStream(r, pc, log, t, false, maxDeliveries);
      case _ => QuietKeepsStream(r, pc, log, t, maxDeliveries);
    }
  }

  lemma QuietKeepsStream(r: Redis, pc: Pc, log: seq<Resolution>, t: TenantId, maxDeliveries: int)
    requires !TouchesStream(pc) && ConsumerOk(r, pc, maxDeliveries)
    requires StreamInv(StreamOf(r, t), ResolvedIds(log, t), HoldsFor(pc, t), maxDeliveries)
    ensures var (r', next) := Command(r, pc);
            StreamInv(StreamOf(r', t), ResolvedIds(LogAfter(log, pc), t), HoldsFor(next, t), maxDeliveries)
  {
    OtherCommandsLeaveStreams(r, pc);
    QuietKeepsHolding(r, pc, t, maxDeliveries);
  }

  lemma QuietKeepsHolding(r: Redis, pc: Pc, t: TenantId, maxDeliveries: int)
    requires !TouchesStream(pc) && ConsumerOk(r, pc, maxDeliveries)
    ensures HoldsFor(Command(r, pc).1, t) == HoldsFor(pc, t)
  {
  }

  /** The consumer's own command leaves it with true facts. */
  lemma ConsumerKeepsConsumerOk(r: Redis, pc: Pc, log: seq<Resolution>, maxDeliveries: int)
    requires Ready(r, pc, true, maxDeliveries)
    requires StreamInv(StreamOf(r, TenantOf(pc)), ResolvedIds(log, TenantOf(pc)), HoldsFor(pc, TenantOf(pc)),
                       maxDeliveries)
    ensures ConsumerOk(Command(r, pc).0, Command(r, pc).1, maxDeliveries)
  {
    var t := TenantOf(pc);
    match pc
    case Reclaiming(_, _, _) => ReclaimKeepsStream(r, pc, ResolvedIds(log, t), maxDeliveries);
    case Reading(_) => ReadKeepsStream(r, pc, ResolvedIds(log, t), maxDeliveries);
    case Probing(_) =>
      var st, entry := StreamOf(r, t), XpendingOldest(r, t);
      if entry.Some? {
        assert st.pending == map[entry.value.id := entry.value.timesDelivered];
      }
    case Acking(_, _) =>
    case Grouping(_, _) =>
    case Adding(_, _) =>
    case _ => QuietKeepsConsumerOk(r, pc, maxDeliveries);
  }

  lemma QuietKeepsConsumerOk(r: Redis, pc: Pc, maxDeliveries: int)
    requires !TouchesStream(pc) && !pc.Probing? && ConsumerOk(r, pc, maxDeliveries)
    ensures ConsumerOk(Command(r, pc).0, Command(r, pc).1, maxDeliveries)
  {
    OtherCommandsLeaveStreams(r, pc);
  }

  /** An enqueuer's command does not disturb what the consumer knows. */
  lemma EnqueuerKeepsConsumerOk(r: Redis, consumer: Pc, pc: Pc, maxDeliveries: int)
    requires ConsumerOk(r, consumer, maxDeliveries) && !Consuming(pc)
    requires pc.Grouping? && !StreamOf(r, pc.t).grouped ==> StreamOf(r, pc.t).pending == map[]
    ensures ConsumerOk(Command(r, pc).0, consumer, maxDeliveries)
  {
    var r' := Command(r, pc).0;
    forall t
      ensures StreamOf(r', t).pending == StreamOf(r, t).pending
      ensures StreamOf(r, t).entries <= StreamOf(r', t).entries
    {
      if t != TenantOf(pc) {
        OtherStreamsUntouched(r, pc, t);
      }
    }
  }

  // ---------- One step of the machine ----------

  lemma StreamsStep(s: State, i: nat, maxDeliveries: int)
    requires Inv(s, maxDeliveries) && i < |s.procs|
    ensures var s' := Step(s, Advance(i), maxDeliveries);
            && StreamsOk(s', maxDeliveries) && ConsumerOk(s'.redis, s'.procs[0], maxDeliveries)
            && OneConsumer(s'.procs)
  {
    var pc, s' := s.procs[i], Step(s, Advance(i), maxDeliveries);
    assert s'.log == LogAfter(s.log, pc);
    assert forall t :: StreamInv(StreamOf(s.redis, t), ResolvedIds(s.log, t), HoldsFor(s.procs[0], t), maxDeliveries);
    forall t
      ensures StreamInv(StreamOf(s'.redis, t), ResolvedIds(s'.log, t), HoldsFor(s'.procs[0], t), maxDeliveries)
    {
      if i == 0 {
        ConsumerKeepsStream(s.redis, pc, s.log, t, maxDeliveries);
      } else {
        EnqueuerKeepsStream(s.redis, pc, s.log, t, HoldsFor(s.procs[0], t), maxDeliveries);
      }
    }
    if i == 0 {
      ConsumerKeepsConsumerOk(s.redis, pc, s.log, maxDeliveries);
    } else {
      assert StreamInv(StreamOf(s.redis, TenantOf(pc)), ResolvedIds(s.log, TenantOf(pc)),
                       HoldsFor(s.procs[0], TenantOf(pc)), maxDeliveries);
      EnqueuerKeepsConsumerOk(s.redis, s.procs[0], pc, maxDeliveries);
      EnqueuerKeepsStream(s.redis, pc, s.log, 0, HoldsFor(s.procs[0], 0), maxDeliveries);
    }
  }

  lemma NextNeeds(r: Redis, pc: Pc, t: TenantId)
    requires Needs(Command(r, pc).1, t)
    requires !Needs(pc, t) && !pc.Grouping?
    ensures pc.Popping? && t in r.rotation
  {
  }

  lemma OnlyPushingAddsToRotation(r: Redis, pc: Pc, t: TenantId)
    requires t in Command(r, pc).0.rotation && t !in r.rotation
    ensures Needs(pc, t)
  {
  }

  lemma GroupsStep(s: State, i: nat, maxDeliveries: int)
    requires Inv(s, maxDeliveries) && i < |s.procs|
    ensures GroupsOk(Step(s, Advance(i), maxDeliveries))
  {
    var pc, s' := s.procs[i], Step(s, Advance(i), maxDeliveries);
    forall t
      ensures StreamOf(s.redis, t).grouped ==> StreamOf(s'.redis, t).grouped
    {
      assert StreamInv(StreamOf(s.redis, t), ResolvedIds(s.log, t), HoldsFor(s.procs[0], t), maxDeliveries);
      StreamsGrow(s.redis, pc, t);
    }
    forall t | t in s'.redis.rotation
      ensures StreamOf(s'.redis, t).grouped
    {
      if t !in s.redis.rotation {
        OnlyPushingAddsToRotation(s.redis, pc, t);
      }
    }
    forall j, t | 0 <= j < |s'.procs| && Needs(s'.procs[j], t)
      ensures StreamOf(s'.redis, t).grouped
    {
      if j == i && !Needs(pc, t) && !pc.Grouping? {
        NextNeeds(s.redis, pc, t);
      }
    }
    assert forall j :: 0 <= j < |s.procs| && j != i ==> s'.procs[j] == s.procs[j];
    assert s'.procs[i] != Crashed by {
      if pc.Probing? || pc.Reading? {
        assert Needs(pc, pc.t);
      }
      CrashesOnlyWithoutGroup(s.redis, pc);
    }
  }

  lemma CrashesOnlyWithoutGroup(r: Redis, pc: Pc)
    requires pc != Crashed && (pc.Probing? || pc.Reading? ==> StreamOf(r, pc.t).grouped)
    ensures Command(r, pc).1 != Crashed
  {
  }

  /** Work appears only when an enqueuer appends, and it still owes the tenant a push. */
  lemma NewWorkIsOwed(r: Redis, pc: Pc, t: TenantId)
    requires StreamOf(r, t).entries != [] ==> StreamOf(r, t).grouped
    requires !HasWork(r, t) && HasWork(Command(r, pc).0, t)
    ensures Owes(Command(r, pc).1, t)
  {
    if t != TenantOf(pc) {
      OtherStreamsUntouched(r, pc, t);
    } else if !TouchesStream(pc) {
      OtherCommandsLeaveStreams(r, pc);
    }
  }

  lemma MembersAreCovered(s: State, t: TenantId)
    requires Accounting(s) && t in s.redis.members
    ensures t in s.redis.rotation || exists j :: 0 <= j < |s.procs| && InWindow(s.procs[j], t)
  {
    assert AccountedFor(s, t);
    WindowsPositive(s.procs, t);
    if Windows(s.procs, t) == 0 {
      assert t in multiset(s.redis.rotation);
    }
  }

  /** A caller that owes t a push either still owes it after its command, or has paid: t is in the rotation, t
      was a member already, or t has nothing left. */
  lemma DebtIsPaid(r: Redis, pc: Pc, t: TenantId)
    requires Owes(pc, t) && StreamOf(r, t).grouped
    requires pc.Reading? ==> StreamOf(r, t).pending == map[]
    ensures var (r', next) := Command(r, pc);
            || Owes(next, t)
            || t in r'.rotation
            || (pc.Scheduling? && t in r.members && r'.rotation == r.rotation)
            || !HasWork(r', t)
  {
  }

  lemma WakeupStep(s: State, i: nat, maxDeliveries: int)
    requires Inv(s, maxDeliveries) && i < |s.procs|
    ensures NoLostWakeup(Step(s, Advance(i), maxDeliveries))
  {
    var pc, s' := s.procs[i], Step(s, Advance(i), maxDeliveries);
    assert s'.procs[i] == Command(s.redis, pc).1;
    forall t | HasWork(s'.redis, t)
      ensures Covered(s', t)
    {
      assert StreamInv(StreamOf(s.redis, t), ResolvedIds(s.log, t), HoldsFor(s.procs[0], t), maxDeliveries);
      if !HasWork(s.redis, t) {
        NewWorkIsOwed(s.redis, pc, t);
      } else {
        assert Covered(s, t);
        if t in s.redis.rotation {
          StillCovered(s, i, t, maxDeliveries);
        } else {
          var j :| 0 <= j < |s.procs| && Owes(s.procs[j], t);
          if j != i {
            assert s'.procs[j] == s.procs[j];
          } else {
            assert Needs(pc, t);
            assert i == 0 || !Consuming(pc);
            DebtIsPaid(s.redis, pc, t);
            if !Owes(s'.procs[i], t) && t !in s'.redis.rotation {
              MembersAreCovered(s, t);
              var k :| 0 <= k < |s.procs| && InWindow(s.procs[k], t);
              assert k != i && s'.procs[k] == s.procs[k] && Owes(s'.procs[k], t);
            }
          }
        }
      }
    }
  }

  lemma StillCovered(s: State, i: nat, t: TenantId, maxDeliveries: int)
    requires i < |s.procs| && t in s.redis.rotation
    ensures Covered(Step(s, Advance(i), maxDeliveries), t)
  {
    var pc, s' := s.procs[i], Step(s, Advance(i), maxDeliveries);
    if pc.Popping? {
      assert s.redis.rotation == [s.redis.rotation[0]] + s.redis.rotation[1..];
      assert s'.procs[i] == Popped(s.redis.rotation[0]);
      if t !in s'.redis.rotation {
        assert Owes(s'.procs[i], t);
      }
    }
  }

  lemma DeadFieldsAppend(log: seq<Resolution>, e: Resolution)
    ensures DeadFields(log + [e]) == DeadFields(log) + if e.dead then [DeadLetterFields(e.m)] else []
  {
    assert (log + [e])[..|log|] == log;
  }

  function DeadInFlight(pc: Pc): seq<Payload> {
    if pc.Acking? && pc.dead then [DeadLetterFields(pc.m)] else []
  }

  lemma DeadLettersMove(r: Redis, pc: Pc, log: seq<Resolution>)
    requires r.dlq == DeadFields(log) + DeadInFlight(pc)
    ensures Command(r, pc).0.dlq == DeadFields(LogAfter(log, pc)) + DeadInFlight(Command(r, pc).1)
  {
    OnlyDeadLetteringAddsDlq(r, pc);
    if pc.Acking? {
      DeadFieldsAppend(log, Resolution(pc.m, pc.dead));
    } else if pc.DeadLettering? {
      assert DeadInFlight(pc) == [];
    }
  }

  lemma DeadLettersStep(s: State, i: nat, maxDeliveries: int)
    requires OneConsumer(s.procs) && DeadLettersOk(s) && i < |s.procs|
    ensures DeadLettersOk(Step(s, Advance(i), maxDeliveries))
  {
    var pc := s.procs[i];
    if i == 0 {
      DeadLettersMove(s.redis, pc, s.log);
    } else {
      OnlyDeadLetteringAddsDlq(s.redis, pc);
    }
  }

  lemma LogStep(s: State, i: nat, maxDeliveries: int)
    requires Inv(s, maxDeliveries) && i < |s.procs|
    ensures LogOk(Step(s, Advance(i), maxDeliveries), maxDeliveries)
  {
    var pc, s' := s.procs[i], Step(s, Advance(i), maxDeliveries);
    StreamsStep(s, i, maxDeliveries);
    forall e | e in s'.log
      ensures ResolutionOk(s'.redis, e, maxDeliveries)
    {
      var t := e.m.tenant;
      assert StreamInv(StreamOf(s.redis, t), ResolvedIds(s.log, t), HoldsFor(s.procs[0], t), maxDeliveries);
      assert StreamInv(StreamOf(s'.redis, t), ResolvedIds(s'.log, t), HoldsFor(s'.procs[0], t), maxDeliveries);
      LogEntryStep(s.redis, s.procs, s.log, i, e, maxDeliveries);
    }
  }

  lemma LogEntryStep(r: Redis, procs: seq<Pc>, log: seq<Resolution>, i: nat, e: Resolution, maxDeliveries: int)
    requires OneConsumer(procs) && i < |procs| && ConsumerOk(r, procs[0], maxDeliveries)
    requires e in LogAfter(log, procs[i]) && (e in log ==> ResolutionOk(r, e, maxDeliveries))
    requires StreamInv(StreamOf(r, e.m.tenant), ResolvedIds(log, e.m.tenant), HoldsFor(procs[0], e.m.tenant),
                       maxDeliveries)
    requires var st := StreamOf(Command(r, procs[i]).0, e.m.tenant); st.cursor <= |st.entries|
    ensures ResolutionOk(Command(r, procs[i]).0, e, maxDeliveries)
  {
    var pc := procs[i];
    if e !in log {
      assert pc.Acking? && e == Resolution(pc.m, pc.dead);
      assert Consuming(pc) && i == 0;
      AckedIsResolved(r, pc, ResolvedIds(log, e.m.tenant), maxDeliveries);
    }
    ResolutionStays(r, pc, e, maxDeliveries);
  }

  lemma AckedIsResolved(r: Redis, pc: Pc, resolved: seq<MessageId>, maxDeliveries: int)
    requires pc.Acking? && ConsumerOk(r, pc, maxDeliveries)
    requires StreamInv(StreamOf(r, pc.m.tenant), resolved, true, maxDeliveries)
    ensures ResolutionOk(r, Resolution(pc.m, pc.dead), maxDeliveries)
  {
    assert IsPending(r, pc.m);
  }

  lemma ResolutionStays(r: Redis, pc: Pc, e: Resolution, maxDeliveries: int)
    requires ResolutionOk(r, e, maxDeliveries)
    requires !StreamOf(r, e.m.tenant).grouped ==> StreamOf(r, e.m.tenant).cursor == 0
    requires var st := StreamOf(Command(r, pc).0, e.m.tenant); st.cursor <= |st.entries|
    ensures ResolutionOk(Command(r, pc).0, e, maxDeliveries)
  {
    StreamsGrow(r, pc, e.m.tenant);
  }

  lemma OtherEventStreams(s: State, e: Event, maxDeliveries: int)
    requires OneConsumer(s.procs) && StreamsOk(s, maxDeliveries) && !e.Advance?
    requires ConsumerOk(s.redis, s.procs[0], maxDeliveries)
    requires e.StartClaim? ==> e.i == 0
    ensures var s' := Step(s, e, maxDeliveries);
            && s'.redis == s.redis && s'.log == s.log && OneConsumer(s'.procs)
            && StreamsOk(s', maxDeliveries) && ConsumerOk(s'.redis, s'.procs[0], maxDeliveries)
  {
    var s' := Step(s, e, maxDeliveries);
    if e.i < |s.procs| && s' != s {
      var pc := s.procs[e.i];
      forall t
        ensures StreamInv(StreamOf(s.redis, t), ResolvedIds(s.log, t), HoldsFor(s'.procs[0], t), maxDeliveries)
      {
        assert StreamInv(StreamOf(s.redis, t), ResolvedIds(s.log, t), HoldsFor(s.procs[0], t), maxDeliveries);
        if pc.Holding? && pc.m.tenant == t && e.i == 0 {
          assert IsPending(s.redis, pc.m);
        }
      }
    }
  }

  lemma OtherEventWakeup(s: State, e: Event, maxDeliveries: int)
    requires NoLostWakeup(s) && !e.Advance?
    ensures NoLostWakeup(Step(s, e, maxDeliveries))
  {
    var s' := Step(s, e, maxDeliveries);
    forall t | HasWork(s'.redis, t)
      ensures Covered(s', t)
    {
      assert Covered(s, t);
      if t !in s.redis.rotation {
        var j :| 0 <= j < |s.procs| && Owes(s.procs[j], t);
        assert s'.procs[j] == s.procs[j];
      }
    }
  }

  lemma OtherEventGroups(s: State, e: Event, maxDeliveries: int)
    requires GroupsOk(s) && !e.Advance?
    ensures GroupsOk(Step(s, e, maxDeliveries))
  {
    var s' := Step(s, e, maxDeliveries);
    forall j, t | 0 <= j < |s'.procs| && Needs(s'.procs[j], t)
      ensures StreamOf(s'.redis, t).grouped
    {
      assert Needs(s.procs[j], t);
    }
  }

  lemma OtherEventDeadLetters(s: State, e: Event, maxDeliveries: int)
    requires OneConsumer(s.procs) && DeadLettersOk(s) && !e.Advance?
    ensures DeadLettersOk(Step(s, e, maxDeliveries))
  {
  }

  /** The other events move one caller without touching Redis. */
  lemma OtherEventStep(s: State, e: Event, maxDeliveries: int)
    requires Inv(s, maxDeliveries) && !e.Advance?
    requires e.StartClaim? ==> e.i == 0
    ensures Inv(Step(s, e, maxDeliveries), maxDeliveries)
  {
    AccountingStep(s, e, maxDeliveries);
    OtherEventStreams(s, e, maxDeliveries);
    OtherEventGroups(s, e, maxDeliveries);
    OtherEventWakeup(s, e, maxDeliveries);
    OtherEventDeadLetters(s, e, maxDeliveries);
  }

  lemma InvStep(s: State, e: Event, maxDeliveries: int)
    requires Inv(s, maxDeliveries)
    requires e.StartClaim? ==> e.i == 0
    ensures Inv(Step(s, e, maxDeliveries), maxDeliveries)
  {
    if !e.Advance? {
      OtherEventStep(s, e, maxDeliveries);
    } else if e.i < |s.procs| {
      AccountingStep(s, e, maxDeliveries);
      StreamsStep(s, e.i, maxDeliveries);
      GroupsStep(s, e.i, maxDeliveries);
      WakeupStep(s, e.i, maxDeliveries);
      DeadLettersStep(s, e.i, maxDeliveries);
      LogStep(s, e.i, maxDeliveries);
    }
  }

  lemma {:induction false} InvRun(s: State, es: seq<Event>, maxDeliveries: int)
    requires Inv(s, maxDeliveries) && ClaimsByConsumerOnly(es)
    ensures Inv(Run(s, es, maxDeliveries), maxDeliveries)
    decreases |es|
  {
    if es != [] {
      InvStep(s, es[0], maxDeliveries);
      InvRun(Step(s, es[0], maxDeliveries), es[1..], maxDeliveries);
    }
  }

  lemma InvStart(callers: nat, maxDeliveries: int)
    requires callers > 0
    ensures Inv(Start(callers), maxDeliveries)
  {
    StartAccounted(callers);
  }
}
