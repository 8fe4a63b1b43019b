/** The fair ingestion queue as its callers use it, one operation at a time. QueueMachine interleaves the same
    Redis commands of many callers. */
module IngestionQueue {
  import opened Collections
  import opened RedisCommands

  datatype Message = Message(tenant: TenantId, id: MessageId, payload: Payload, deliveryCount: nat)

  datatype Stats = Stats(totalQueued: int, pendingTenants: nat, dlqDepth: nat)

  // ---------- What each operation does to Redis ----------

  function Schedule(r: Redis, t: TenantId): Redis {
    var (added, isNew) := Sadd(r, t);
    if isNew then Rpush(added, t) else added
  }

  function Enqueue(r: Redis, t: TenantId, p: Payload): Redis {
    Schedule(Xadd(XgroupCreate(r, t), t, p), t)
  }

  function ClaimPendingRetry(r: Redis, t: TenantId): (Redis, Option<Message>) {
    match XpendingOldest(r, t)
    case None => (r, None)
    case Some(entry) =>
      var (claimed, fields) := Xclaim(r, t, entry.id);
      match fields
      case None => (claimed, None)
      case Some(p) => (claimed, Some(Message(t, entry.id, p, entry.timesDelivered + 1)))
  }

  function ClaimFresh(r: Redis, t: TenantId): (Redis, Option<Message>) {
    var (read, reply) := Xreadgroup(r, t);
    match reply
    case None => (read, None)
    case Some((id, p)) => (read, Some(Message(t, id, p, 1)))
  }

  function ClaimFor(r: Redis, t: TenantId): (Redis, Option<Message>) {
    var (retried, message) := ClaimPendingRetry(r, t);
    if message.Some? then (retried, message) else ClaimFresh(retried, t)
  }

  function ClaimNext(r: Redis): (Redis, Option<Message>)
    decreases |r.rotation|
  {
    var (popped, head) := Lpop(r);
    match head
    case None => (r, None)
    case Some(t) =>
      var (claimed, message) := ClaimFor(Srem(popped, t), t);
      if message.None? then ClaimNext(claimed) else (Schedule(claimed, t), message)
  }

  const RESERVED_FIELDS := {"tenant_id", "original_message_id", "delivery_count"}

  /** The dead-letter entry: three bookkeeping fields written over the message's own payload. */
  function DeadLetterFields(m: Message): Payload {
    m.payload["tenant_id" := TenantText(m.tenant)]
             ["original_message_id" := IdText(m.id)]
             ["delivery_count" := CountText(m.deliveryCount)]
  }

  function Ack(r: Redis, m: Message): Redis {
    Xack(r, m.tenant, m.id)
  }

  function Fail(r: Redis, m: Message, maxDeliveries: int): (Redis, bool) {
    if m.deliveryCount >= maxDeliveries
    then (Xack(XaddDlq(r, DeadLetterFields(m)), m.tenant, m.id), true)
    else (r, false)
  }

  /** One turn of the consumer loop; `succeeded` is whether the handler returned normally. */
  function ConsumeOnce(r: Redis, succeeded: bool, maxDeliveries: int): Redis {
    var (claimed, message) := ClaimNext(r);
    match message
    case None => claimed
    case Some(m) => if succeeded then Ack(claimed, m) else Fail(claimed, m, maxDeliveries).0
  }

  function Consume(r: Redis, outcomes: seq<bool>, maxDeliveries: int): Redis
    decreases |outcomes|
  {
    if outcomes == [] then r
    else Consume(ConsumeOnce(r, outcomes[0], maxDeliveries), outcomes[1..], maxDeliveries)
  }

  // ---------- The queue object ----------

  /** `client` stands for the Redis server the object talks to; every assignment to it is one command. */
  class RedisIngestionQueue {
    var client: Redis
    const maxDeliveries: int

    constructor (client: Redis, maxDeliveries: int := 5)
      ensures this.client == client && this.maxDeliveries == maxDeliveries
    {
      this.client := client;
      this.maxDeliveries := maxDeliveries;
    }

    /** The tenant has exactly one turn in the rotation; the turns of the others stay as they are. */
    method ScheduleTenant(t: TenantId)
      modifies this`client
      ensures client == Schedule(old(client), t)
      ensures WellFormed(old(client)) && StreamOf(old(client), t).grouped ==> OneTurn(old(client), client, t)
    {
      if WellFormed(client) && StreamOf(client, t).grouped {
        ScheduleTakesOneTurn(client, t);
      }
      var (added, isNew) := Sadd(client, t);
      client := added;
      if isNew {
        client := Rpush(client, t);
      }
    }

    method EnqueueMessage(t: TenantId, p: Payload)
      modifies this`client
      ensures client == Enqueue(old(client), t, p)
      ensures WellFormed(old(client)) && (t in old(client).streams ==> old(client).streams[t].grouped) ==>
                OneTurn(old(client), client, t) && StreamOf(client, t).entries == StreamOf(old(client), t).entries + [p]
    {
      if WellFormed(client) && (t in client.streams ==> client.streams[t].grouped) {
        EnqueueAppends(client, t, p);
      }
      client := XgroupCreate(client, t);
      client := Xadd(client, t, p);
      ScheduleTenant(t);
    }

    method Claim() returns (message: Option<Message>)
      modifies this`client
      ensures (client, message) == ClaimNext(old(client))
    {
      while true
        invariant ClaimNext(client) == ClaimNext(old(client))
        decreases |client.rotation|
      {
        var (popped, head) := Lpop(client);
        client := popped;
        if head.None? {
          return None;
        }
        var t := head.value;
        client := Srem(client, t);
        var (retried, retry) := ClaimPendingRetry(client, t);
        client := retried;
        message := retry;
        if message.None? {
          var (read, fresh_) := ClaimFresh(client, t);
          client := read;
          message := fresh_;
        }
        if message.None? {
          continue;
        }
        ScheduleTenant(t);
        return;
      }
    }

    /** A delivered message is resolved: AckedNeverReturns says what that is worth. */
    method Acknowledge(m: Message)
      modifies this`client
      ensures client == Ack(old(client), m)
      ensures SettlesOnly(old(client), client, m) && client.dlq == old(client).dlq
      ensures WasDelivered(old(client), m) ==> Resolved(client, m.tenant, m.id)
    {
      AckSettles(client, m);
      client := Xack(client, m.tenant, m.id);
    }

    /** At the delivery limit the message goes to the end of the dead-letter stream and is resolved; below it nothing
        happens. */
    method Reject(m: Message) returns (deadLettered: bool)
      modifies this`client
      ensures (client, deadLettered) == Fail(old(client), m, maxDeliveries)
      ensures deadLettered <==> m.deliveryCount >= maxDeliveries
      ensures deadLettered ==> DeadLetters(old(client), client, m)
      ensures if deadLettered then WasDelivered(old(client), m) ==> Resolved(client, m.tenant, m.id)
              else client == old(client)
    {
      FailDeadLetters(client, m, maxDeliveries);
      if m.deliveryCount >= maxDeliveries {
        client := XaddDlq(client, DeadLetterFields(m));
        client := Xack(client, m.tenant, m.id);
        return true;
      }
      return false;
    }

    /** Reads only. With every tenant that has work in the rotation members, the total is the true backlog. */
    method GetStats() returns (stats: Stats)
      ensures stats.totalQueued == Backlog(client)
      ensures stats.pendingTenants == |client.members| && stats.dlqDepth == |client.dlq|
    {
      var unvisited := client.members;
      var total := 0;
      while unvisited != {}
        invariant unvisited <= client.members
        invariant total + SumOver(Depths(client, client.members), unvisited) == Backlog(client)
      {
        var t :| t in unvisited;
        SumOverPick(Depths(client, client.members), unvisited, t);
        if StreamOf(client, t).grouped {
          total := total + Unresolved(client, t);
        }
        unvisited := unvisited - {t};
      }
      stats := Stats(total, |client.members|, |client.dlq|);
    }

    /** The consumer loop, one handler outcome per turn: enough turns empty the queue, whatever the outcomes. */
    method RunConsumer(outcomes: seq<bool>)
      modifies this`client
      ensures client == Consume(old(client), outcomes, maxDeliveries)
      ensures AtRest(old(client), maxDeliveries) && |outcomes| >= Potential(old(client), maxDeliveries) ==>
                forall t :: !HasWork(client, t)
    {
      if AtRest(client, maxDeliveries) && |outcomes| >= Potential(client, maxDeliveries) {
        QueueDrains(client, outcomes, maxDeliveries);
      }
      for i := 0 to |outcomes|
        invariant Consume(client, outcomes[i..], maxDeliveries) == Consume(old(client), outcomes, maxDeliveries)
      {
        assert outcomes[i..][1..] == outcomes[i + 1..];
        var claimed := Claim();
        if claimed.Some? {
          if outcomes[i] {
            Acknowledge(claimed.value);
          } else {
            var _ := Reject(claimed.value);
          }
        }
      }
    }
  }

  /** What each of the given tenants adds to the queue depth: nothing before its consumer group exists. */
  function Depths(r: Redis, tenants: set<TenantId>): map<TenantId, int> {
    map t | t in tenants :: if StreamOf(r, t).grouped then Unresolved(r, t) else 0
  }

  ghost function Backlog(r: Redis): int {
    SumOver(Depths(r, r.members), r.members)
  }

  // ---------- Between operations ----------

  ghost predicate StreamOk(st: Stream) {
    && st.cursor <= |st.entries|
    && (forall id <- st.pending :: id < st.cursor)
  }

  /** The rotation list and the member set describe the same tenants, without repetition. */
  ghost predicate WellFormed(r: Redis) {
    && (forall i, j :: 0 <= i < j < |r.rotation| ==> r.rotation[i] != r.rotation[j])
    && (forall t :: t in r.members <==> t in r.rotation)
    && (forall t <- r.rotation :: StreamOf(r, t).grouped)
    && (forall t <- r.streams :: StreamOk(r.streams[t]))
  }

  /** m is the next message of its tenant's stream: the oldest unacknowledged one if there is one, else the
      first undelivered one; after is before with exactly that delivery recorded. */
  ghost predicate Delivers(before: Stream, after: Stream, m: Message) {
    && m.id < |before.entries|
    && m.payload == before.entries[m.id]
    && if before.pending != map[] then
         && m.id in before.pending && (forall id <- before.pending :: m.id <= id)
         && m.deliveryCount == before.pending[m.id] + 1
         && after == before.(pending := before.pending[m.id := m.deliveryCount])
       else
         && m.id == before.cursor && m.deliveryCount == 1
         && after == before.(cursor := before.cursor + 1, pending := map[m.id := 1])
  }

  lemma ClaimForServes(r: Redis, t: TenantId)
    requires t in r.streams && StreamOk(r.streams[t])
    ensures var (r', m) := ClaimFor(r, t);
            if HasWork(r, t) then
              && m.Some? && m.value.tenant == t
              && t in r'.streams && r' == SetStream(r, t, r'.streams[t])
              && Delivers(r.streams[t], r'.streams[t], m.value)
            else
              m.None? && r' == r
  {
    var st := r.streams[t];
    var entry := XpendingOldest(r, t);
    if entry.Some? {
      assert entry.value.id < st.cursor;
    } else {
      assert ClaimPendingRetry(r, t) == (r, None);
      assert st.pending == map[];
    }
  }

  /** Position of the first tenant of the rotation that has work, or the length of the rotation. */
  ghost function FirstBusy(r: Redis): (i: nat)
    ensures i <= |r.rotation|
    ensures forall j :: 0 <= j < i ==> !HasWork(r, r.rotation[j])
    ensures i < |r.rotation| ==> HasWork(r, r.rotation[i])
    decreases |r.rotation|
  {
    if r.rotation == [] || HasWork(r, r.rotation[0]) then 0
    else 1 + FirstBusy(r.(rotation := r.rotation[1..]))
  }

  /** LPOP and SREM of the head, the first two commands of a claim. */
  function TakeHead(r: Redis): Redis
    requires r.rotation != []
  {
    Srem(Lpop(r).0, r.rotation[0])
  }

  lemma TakeHeadKeepsWellFormed(r: Redis)
    requires WellFormed(r) && r.rotation != []
    ensures WellFormed(TakeHead(r)) && r.rotation[0] !in TakeHead(r).rotation
  {
    var t, rest := r.rotation[0], TakeHead(r);
    assert r.rotation == [t] + rest.rotation;
    forall u ensures u in rest.members <==> u in rest.rotation {
      if u in rest.members {
        assert u in [t] + rest.rotation && u != t;
      }
    }
  }

  lemma RescheduleKeepsWellFormed(r: Redis, t: TenantId, st: Stream)
    requires WellFormed(r) && t !in r.rotation && st.grouped && StreamOk(st)
    ensures var r' := Schedule(SetStream(r, t, st), t);
            && r' == Redis(r.rotation + [t], r.members + {t}, r.streams[t := st], r.dlq)
            && WellFormed(r')
  {
    var r' := Schedule(SetStream(r, t, st), t);
    forall u ensures u in r'.members <==> u in r'.rotation {}
  }

  lemma ServeHead(r: Redis)
    requires WellFormed(r) && r.rotation != [] && HasWork(r, r.rotation[0])
    ensures Serves(r, ClaimNext(r).0, ClaimNext(r).1, 0)
  {
    var t, rest := r.rotation[0], TakeHead(r);
    TakeHeadKeepsWellFormed(r);
    assert t in r.rotation && t in r.streams && StreamOk(r.streams[t]);
    var claimed, m := ClaimFor(rest, t).0, ClaimFor(rest, t).1;
    assert m.Some? && m.value.tenant == t && t in claimed.streams
           && claimed == SetStream(rest, t, claimed.streams[t])
           && Delivers(rest.streams[t], claimed.streams[t], m.value) by {
      ClaimForServes(rest, t);
    }
    assert ClaimNext(r) == (Schedule(claimed, t), m);
    RescheduleKeepsWellFormed(rest, t, claimed.streams[t]);
  }

  lemma SkipHead(r: Redis)
    requires WellFormed(r) && r.rotation != [] && !HasWork(r, r.rotation[0])
    ensures ClaimNext(r) == ClaimNext(TakeHead(r))
    ensures FirstBusy(r) == 1 + FirstBusy(TakeHead(r))
  {
    var t, rest := r.rotation[0], TakeHead(r);
    assert t in r.streams;
    ClaimForServes(rest, t);
    SameBusy(r.(rotation := r.rotation[1..]), rest);
  }

  /** The tenant at position i of the rotation is served, or nobody if there is none: those before it leave the
      rotation, it goes to the back, and every other stream is untouched. */
  ghost predicate Serves(r: Redis, r': Redis, m: Option<Message>, i: nat) {
    && WellFormed(r') && r'.dlq == r.dlq && i <= |r.rotation|
    && if i == |r.rotation| then
         m.None? && r' == r.(rotation := [], members := {})
       else
         var t := r.rotation[i];
         && m.Some? && m.value.tenant == t
         && r'.rotation == r.rotation[i + 1..] + [t]
         && t in r'.streams && r'.streams == r.streams[t := r'.streams[t]]
         && Delivers(StreamOf(r, t), r'.streams[t], m.value)
  }

  lemma ServesLater(r: Redis, r': Redis, m: Option<Message>, i: nat)
    requires r.rotation != [] && Serves(TakeHead(r), r', m, i)
    ensures Serves(r, r', m, 1 + i)
  {
    if i < |TakeHead(r).rotation| {
      assert r.rotation[1..][i + 1..] == r.rotation[i + 2..];
    }
  }

  /** Round robin: the claim serves the first tenant in rotation order that has work. */
  lemma {:induction false} ClaimNextIsRoundRobin(r: Redis)
    requires WellFormed(r)
    ensures Serves(r, ClaimNext(r).0, ClaimNext(r).1, FirstBusy(r))
    decreases |r.rotation|
  {
    if r.rotation == [] {
      NobodyWaits(r);
    } else if HasWork(r, r.rotation[0]) {
      ServeHead(r);
    } else {
      var rest := TakeHead(r);
      var r', m, i := ClaimNext(rest).0, ClaimNext(rest).1, FirstBusy(rest);
      assert Serves(rest, r', m, i) by {
        TakeHeadKeepsWellFormed(r);
        ClaimNextIsRoundRobin(rest);
      }
      ServesLater(r, r', m, i);
      SkipHead(r);
    }
  }

  lemma NobodyWaits(r: Redis)
    requires WellFormed(r) && r.rotation == []
    ensures Serves(r, ClaimNext(r).0, ClaimNext(r).1, 0)
  {
    assert forall t :: t !in r.members;
  }

  lemma {:induction false} SameBusy(a: Redis, b: Redis)
    requires a.rotation == b.rotation && a.streams == b.streams
    ensures FirstBusy(a) == FirstBusy(b)
    decreases |a.rotation|
  {
    if a.rotation != [] {
      SameBusy(a.(rotation := a.rotation[1..]), b.(rotation := b.rotation[1..]));
    }
  }

  /** Enqueueing appends one undelivered entry and puts the tenant in the rotation exactly once. */
  lemma EnqueueAppends(r: Redis, t: TenantId, p: Payload)
    requires WellFormed(r)
    requires t in r.streams ==> r.streams[t].grouped
    ensures var r' := Enqueue(r, t, p); var st := StreamOf(r, t);
            && WellFormed(r') && t in r'.rotation && r'.dlq == r.dlq
            && r'.streams == r.streams[t := Stream(st.entries + [p], true, st.cursor, st.pending)]
            && r'.rotation == if t in r.rotation then r.rotation else r.rotation + [t]
  {
    var r' := Enqueue(r, t, p);
    forall u ensures u in r'.members <==> u in r'.rotation {}
  }

  /** What scheduling a tenant does to the rotation. */
  ghost predicate OneTurn(r: Redis, r': Redis, t: TenantId) {
    && WellFormed(r') && t in r'.rotation
    && r'.rotation == if t in r.rotation then r.rotation else r.rotation + [t]
  }

  lemma ScheduleTakesOneTurn(r: Redis, t: TenantId)
    requires WellFormed(r) && StreamOf(r, t).grouped
    ensures OneTurn(r, Schedule(r, t), t) && Schedule(r, t).streams == r.streams
    ensures Schedule(Schedule(r, t), t) == Schedule(r, t)
  {
    var r' := Schedule(r, t);
    forall u ensures u in r'.members <==> u in r'.rotation {}
    assert r'.members + {t} == r'.members;
  }

  // ---------- How a delivery ends ----------

  /** The message leaves its tenant's pending list; nothing else of the streams and the rotation changes. */
  ghost predicate SettlesOnly(before: Redis, after: Redis, m: Message) {
    && after.rotation == before.rotation && after.members == before.members
    && after.streams.Keys == before.streams.Keys
    && forall t <- before.streams ::
         after.streams[t].entries == before.streams[t].entries
         && after.streams[t].grouped == before.streams[t].grouped
         && after.streams[t].cursor == before.streams[t].cursor
         && after.streams[t].pending == before.streams[t].pending - if t == m.tenant then {m.id} else {}
  }

  /** All fields of the message but the reserved ones, and these three. */
  ghost predicate EntryFor(entry: Payload, m: Message) {
    && entry.Keys == m.payload.Keys + RESERVED_FIELDS
    && (forall f <- m.payload :: f !in RESERVED_FIELDS ==> entry[f] == m.payload[f])
    && entry["tenant_id"] == TenantText(m.tenant)
    && entry["original_message_id"] == IdText(m.id)
    && entry["delivery_count"] == CountText(m.deliveryCount)
  }

  ghost predicate DeadLetters(before: Redis, after: Redis, m: Message) {
    && SettlesOnly(before, after, m)
    && |after.dlq| == |before.dlq| + 1 && after.dlq[..|before.dlq|] == before.dlq
    && EntryFor(after.dlq[|before.dlq|], m)
  }

  lemma AckSettles(r: Redis, m: Message)
    ensures SettlesOnly(r, Ack(r, m), m) && Ack(r, m).dlq == r.dlq
  {
  }

  lemma FailDeadLetters(r: Redis, m: Message, maxDeliveries: int)
    ensures var (r', dead) := Fail(r, m, maxDeliveries);
            && (dead <==> m.deliveryCount >= maxDeliveries)
            && if dead then DeadLetters(r, r', m) else r' == r
  {
    if m.deliveryCount >= maxDeliveries {
      var r' := XaddDlq(r, DeadLetterFields(m));
      AckSettles(r', m);
      assert SettlesOnly(r, Ack(r', m), m);
    }
  }

  /** A turn of the consumer claims one message, if there is one, and then: a success resolves it, the last allowed
      failure dead-letters it, an earlier failure leaves it to be claimed again. */
  lemma TurnSettles(r: Redis, succeeded: bool, maxDeliveries: int)
    ensures var (claimed, m) := ClaimNext(r);
            var r' := ConsumeOnce(r, succeeded, maxDeliveries);
            if m.None? then r' == claimed
            else if succeeded then SettlesOnly(claimed, r', m.value) && r'.dlq == claimed.dlq
            else if m.value.deliveryCount >= maxDeliveries then DeadLetters(claimed, r', m.value)
            else r' == claimed
  {
    var (claimed, m) := ClaimNext(r);
    if m.Some? {
      AckSettles(claimed, m.value);
      FailDeadLetters(claimed, m.value, maxDeliveries);
    }
  }

  // ---------- Acknowledging is final ----------

  ghost predicate WasDelivered(r: Redis, m: Message) {
    m.tenant in r.streams && m.id < r.streams[m.tenant].cursor
  }

  /** Delivered at some time, and no longer pending. */
  ghost predicate Resolved(r: Redis, t: TenantId, id: MessageId) {
    id < StreamOf(r, t).cursor && id !in StreamOf(r, t).pending
  }

  datatype Op =
    | EnqueueOp(t: TenantId, p: Payload)
    | ClaimOp
    | AckOp(m: Message)
    | FailOp(m: Message)

  function Apply(r: Redis, op: Op, maxDeliveries: int): Redis {
    match op
    case EnqueueOp(t, p) => Enqueue(r, t, p)
    case ClaimOp => ClaimNext(r).0
    case AckOp(m) => Ack(r, m)
    case FailOp(m) => Fail(r, m, maxDeliveries).0
  }

  function ApplyAll(r: Redis, ops: seq<Op>, maxDeliveries: int): Redis
    decreases |ops|
  {
    if ops == [] then r else ApplyAll(Apply(r, ops[0], maxDeliveries), ops[1..], maxDeliveries)
  }

  /** Every stream that has delivered anything has its group, so that creating the group cannot reset it. */
  ghost predicate Grouped(r: Redis) {
    forall t <- r.streams :: r.streams[t].grouped
  }

  lemma ClaimForSparesResolved(r: Redis, u: TenantId, t: TenantId, id: MessageId)
    requires Resolved(r, t, id) && Grouped(r)
    ensures var (r', m) := ClaimFor(r, u);
            && Resolved(r', t, id) && Grouped(r') && (m.Some? && m.value.tenant == t ==> m.value.id != id)
  {
  }

  lemma {:induction false} ClaimSparesResolved(r: Redis, t: TenantId, id: MessageId)
    requires Resolved(r, t, id) && Grouped(r)
    ensures var (r', m) := ClaimNext(r);
            && Resolved(r', t, id) && Grouped(r') && (m.Some? && m.value.tenant == t ==> m.value.id != id)
    decreases |r.rotation|
  {
    if r.rotation != [] {
      var rest := TakeHead(r);
      ClaimForSparesResolved(rest, r.rotation[0], t, id);
      var claimed, m := ClaimFor(rest, r.rotation[0]).0, ClaimFor(rest, r.rotation[0]).1;
      if m.None? {
        ClaimForKeepsRotation(rest, r.rotation[0]);
        ClaimSparesResolved(claimed, t, id);
      }
    }
  }

  lemma ClaimForKeepsRotation(r: Redis, t: TenantId)
    ensures ClaimFor(r, t).0.rotation == r.rotation
  {
  }

  lemma OpSparesResolved(r: Redis, op: Op, t: TenantId, id: MessageId, maxDeliveries: int)
    requires Resolved(r, t, id) && Grouped(r)
    ensures Resolved(Apply(r, op, maxDeliveries), t, id) && Grouped(Apply(r, op, maxDeliveries))
  {
    if op.ClaimOp? {
      ClaimSparesResolved(r, t, id);
    }
  }

  /** Once a delivered message is acknowledged, no later claim returns it, whatever is enqueued, claimed, acknowledged
      and failed in between. */
  lemma {:induction false} ResolvedNeverReturns(
    r: Redis, t: TenantId, id: MessageId, ops: seq<Op>, maxDeliveries: int)
    requires Resolved(r, t, id) && Grouped(r)
    ensures var m := ClaimNext(ApplyAll(r, ops, maxDeliveries)).1;
            m.Some? && m.value.tenant == t ==> m.value.id != id
    decreases |ops|
  {
    if ops == [] {
      ClaimSparesResolved(r, t, id);
    } else {
      OpSparesResolved(r, ops[0], t, id, maxDeliveries);
      ResolvedNeverReturns(Apply(r, ops[0], maxDeliveries), t, id, ops[1..], maxDeliveries);
    }
  }

  lemma AckedNeverReturns(r: Redis, m: Message, ops: seq<Op>, maxDeliveries: int)
    requires WasDelivered(r, m) && Grouped(r)
    ensures var again := ClaimNext(ApplyAll(Ack(r, m), ops, maxDeliveries)).1;
            again.Some? && again.value.tenant == m.tenant ==> again.value.id != m.id
  {
    ResolvedNeverReturns(Ack(r, m), m.tenant, m.id, ops, maxDeliveries);
  }

  // ---------- Draining ----------

  function AllowedDeliveries(maxDeliveries: int): (n: nat)
    ensures n >= 1
  {
    if maxDeliveries < 1 then 1 else maxDeliveries
  }

  /** Between the turns of one consumer: at most the latest delivered entry of a tenant awaits a retry, it has
      a delivery left, and every tenant with work is in the rotation. */
  ghost predicate AtRest(r: Redis, maxDeliveries: int) {
    && WellFormed(r)
    && (forall t <- r.streams :: RestingStream(r.streams[t], maxDeliveries))
    && (forall t :: HasWork(r, t) ==> t in r.rotation)
  }

  ghost predicate RestingStream(st: Stream, maxDeliveries: int) {
    && st.cursor <= |st.entries|
    && (st.pending != map[] ==>
          && st.cursor > 0 && st.pending.Keys == {st.cursor - 1}
          && 1 <= st.pending[st.cursor - 1] < AllowedDeliveries(maxDeliveries))
  }

  /** Deliveries that can still happen on a stream. */
  ghost function Remaining(st: Stream, maxDeliveries: int): int
    requires RestingStream(st, maxDeliveries)
  {
    AllowedDeliveries(maxDeliveries) * (|st.entries| - st.cursor)
    + if st.pending == map[] then 0 else AllowedDeliveries(maxDeliveries) - st.pending[st.cursor - 1]
  }

  ghost function RemainingMap(r: Redis, maxDeliveries: int): map<TenantId, int>
    requires AtRest(r, maxDeliveries)
  {
    map t | t in r.streams :: Remaining(r.streams[t], maxDeliveries)
  }

  ghost function Potential(r: Redis, maxDeliveries: int): int
    requires AtRest(r, maxDeliveries)
  {
    SumOver(RemainingMap(r, maxDeliveries), r.streams.Keys)
  }

  lemma {:induction false} PotentialOf(f: map<TenantId, int>, keys: set<TenantId>)
    requires keys <= f.Keys && forall t <- keys :: f[t] >= 0
    ensures SumOver(f, keys) >= 0
    ensures SumOver(f, keys) == 0 ==> forall t <- keys :: f[t] == 0
    decreases |keys|
  {
    forall t | t in keys
      ensures SumOver(f, keys) >= f[t]
    {
      SumOverPick(f, keys, t);
      PotentialOf(f, keys - {t});
    }
    if keys != {} {
      var t :| t in keys;
      assert SumOver(f, keys) >= f[t];
    }
  }

  lemma ResolveKeepsRest(before: Stream, after: Stream, m: Message, maxDeliveries: int, done: bool)
    requires RestingStream(before, maxDeliveries) && Delivers(before, after, m)
    requires !done ==> m.deliveryCount < maxDeliveries
    ensures var left := if done then after.(pending := after.pending - {m.id}) else after;
            && RestingStream(left, maxDeliveries)
            && Remaining(left, maxDeliveries) < Remaining(before, maxDeliveries)
  {
    var n := AllowedDeliveries(maxDeliveries);
    var left := if done then after.(pending := after.pending - {m.id}) else after;
    assert after.pending.Keys == {m.id};
    if done {
      assert left.pending.Keys == {};
      assert left.pending == map[];
    }
    var k := |before.entries| - before.cursor;
    assert n * (k - 1) == n * k - n;
  }

  /** r' is r with one delivery of tenant t used up and t still in the rotation. */
  ghost predicate UsesDelivery(r: Redis, r': Redis, t: TenantId, maxDeliveries: int) {
    && t in r.streams && t in r'.streams
    && r'.streams == r.streams[t := r'.streams[t]]
    && RestingStream(r.streams[t], maxDeliveries) && RestingStream(r'.streams[t], maxDeliveries)
    && Remaining(r'.streams[t], maxDeliveries) < Remaining(r.streams[t], maxDeliveries)
  }

  lemma UsingDeliveryLowersPotential(r: Redis, r': Redis, t: TenantId, maxDeliveries: int)
    requires AtRest(r, maxDeliveries) && AtRest(r', maxDeliveries) && UsesDelivery(r, r', t, maxDeliveries)
    ensures Potential(r', maxDeliveries) < Potential(r, maxDeliveries)
  {
    var f, g := RemainingMap(r, maxDeliveries), RemainingMap(r', maxDeliveries);
    assert r'.streams.Keys == r.streams.Keys;
    SumOverPick(f, r.streams.Keys, t);
    SumOverPick(g, r.streams.Keys, t);
    SumOverCongruent(f, g, r.streams.Keys - {t});
  }

  lemma StaysInRotation(rotation: seq<TenantId>, i: nat, u: TenantId)
    requires i < |rotation| && u in rotation && u !in rotation[..i]
    ensures u in rotation[i + 1..] + [rotation[i]]
  {
    assert rotation == rotation[..i] + [rotation[i]] + rotation[i + 1..];
  }

  /** What acknowledging, rejecting or dead-lettering a claimed message leaves of the streams and the rotation. */
  lemma ResolveTouchesOneStream(claimed: Redis, m: Message, succeeded: bool, maxDeliveries: int)
    requires m.tenant in claimed.streams
    ensures var r' := if succeeded then Ack(claimed, m) else Fail(claimed, m, maxDeliveries).0;
            var st := claimed.streams[m.tenant];
            var left := if succeeded || m.deliveryCount >= maxDeliveries
                        then st.(pending := st.pending - {m.id}) else st;
            && r'.streams == claimed.streams[m.tenant := left]
            && r'.rotation == claimed.rotation && r'.members == claimed.members
  {
  }

  /** What a turn does to the streams when some tenant has work. */
  lemma BusyTurnStreams(r: Redis, succeeded: bool, maxDeliveries: int)
    requires AtRest(r, maxDeliveries) && FirstBusy(r) < |r.rotation|
    ensures var r' := ConsumeOnce(r, succeeded, maxDeliveries); var t := r.rotation[FirstBusy(r)];
            && UsesDelivery(r, r', t, maxDeliveries)
            && WellFormed(r') && r'.streams[t].grouped
            && r'.rotation == r.rotation[FirstBusy(r) + 1..] + [t]
  {
    var claimed, m, i, r' := ClaimNext(r).0, ClaimNext(r).1, FirstBusy(r), ConsumeOnce(r, succeeded, maxDeliveries);
    assert Serves(r, claimed, m, i) by {
      ClaimNextIsRoundRobin(r);
    }
    ServedResolved(r, claimed, m, i, r', succeeded, maxDeliveries);
  }

  lemma ServedResolved(
    r: Redis, claimed: Redis, m: Option<Message>, i: nat, r': Redis, succeeded: bool, maxDeliveries: int)
    requires AtRest(r, maxDeliveries) && Serves(r, claimed, m, i) && i < |r.rotation|
    requires r' == if succeeded then Ack(claimed, m.value) else Fail(claimed, m.value, maxDeliveries).0
    ensures var t := r.rotation[i];
            && UsesDelivery(r, r', t, maxDeliveries)
            && WellFormed(r') && r'.streams[t].grouped
            && r'.rotation == r.rotation[i + 1..] + [t]
  {
    var t := r.rotation[i];
    assert t in claimed.rotation by {
      assert claimed.rotation[|claimed.rotation| - 1] == t;
    }
    ClaimResolved(r, claimed, m.value, r', succeeded, maxDeliveries);
  }

  lemma ClaimResolved(r: Redis, claimed: Redis, m: Message, r': Redis, succeeded: bool, maxDeliveries: int)
    requires AtRest(r, maxDeliveries) && WellFormed(claimed)
    requires m.tenant in r.rotation && m.tenant in claimed.rotation && m.tenant in claimed.streams
    requires claimed.streams == r.streams[m.tenant := claimed.streams[m.tenant]]
    requires Delivers(StreamOf(r, m.tenant), claimed.streams[m.tenant], m)
    requires r' == if succeeded then Ack(claimed, m) else Fail(claimed, m, maxDeliveries).0
    ensures UsesDelivery(r, r', m.tenant, maxDeliveries)
    ensures WellFormed(r') && r'.streams[m.tenant].grouped && r'.rotation == claimed.rotation
  {
    var t := m.tenant;
    assert StreamOf(r, t).grouped && t in r.streams && StreamOf(r, t) == r.streams[t];
    ResolveStreams(r.streams[t], claimed, m, r', succeeded, maxDeliveries);
    assert r'.streams == r.streams[t := r'.streams[t]];
    assert StreamOf(claimed, t).grouped;
    BusyTurnWellFormed(claimed, r', t);
  }

  lemma ResolveStreams(before: Stream, claimed: Redis, m: Message, r': Redis, succeeded: bool, maxDeliveries: int)
    requires m.tenant in claimed.streams && RestingStream(before, maxDeliveries)
    requires Delivers(before, claimed.streams[m.tenant], m)
    requires r' == if succeeded then Ack(claimed, m) else Fail(claimed, m, maxDeliveries).0
    ensures var t := m.tenant;
            && t in r'.streams && r'.streams == claimed.streams[t := r'.streams[t]]
            && RestingStream(r'.streams[t], maxDeliveries)
            && Remaining(r'.streams[t], maxDeliveries) < Remaining(before, maxDeliveries)
            && r'.streams[t].grouped == claimed.streams[t].grouped
            && r'.rotation == claimed.rotation && r'.members == claimed.members
  {
    ResolveTouchesOneStream(claimed, m, succeeded, maxDeliveries);
    ResolveKeepsRest(before, claimed.streams[m.tenant], m, maxDeliveries,
                     succeeded || m.deliveryCount >= maxDeliveries);
  }

  /** A turn that finds work leaves every busy tenant in the rotation. */
  lemma BusyTurn(r: Redis, succeeded: bool, maxDeliveries: int)
    requires AtRest(r, maxDeliveries) && FirstBusy(r) < |r.rotation|
    ensures var r' := ConsumeOnce(r, succeeded, maxDeliveries);
            && AtRest(r', maxDeliveries)
            && UsesDelivery(r, r', r.rotation[FirstBusy(r)], maxDeliveries)
  {
    BusyTurnStreams(r, succeeded, maxDeliveries);
    var i, r' := FirstBusy(r), ConsumeOnce(r, succeeded, maxDeliveries);
    forall u | HasWork(r', u)
      ensures u in r'.rotation
    {
      if u != r.rotation[i] {
        assert HasWork(r, u) && u in r.rotation;
        StaysInRotation(r.rotation, i, u);
      }
    }
  }

  lemma BusyTurnWellFormed(claimed: Redis, r': Redis, t: TenantId)
    requires WellFormed(claimed) && t in claimed.streams && t in r'.streams
    requires r'.streams == claimed.streams[t := r'.streams[t]]
    requires r'.rotation == claimed.rotation && r'.members == claimed.members
    requires StreamOk(r'.streams[t]) && r'.streams[t].grouped == claimed.streams[t].grouped
    ensures WellFormed(r')
  {
  }

  /** Every turn of the consumer, whatever the handler does, either finds nothing to do anywhere or uses up one
      of finitely many remaining deliveries; the queue stays at rest in between. */
  lemma ConsumeOnceProgress(r: Redis, succeeded: bool, maxDeliveries: int)
    requires AtRest(r, maxDeliveries)
    ensures var r' := ConsumeOnce(r, succeeded, maxDeliveries);
            && AtRest(r', maxDeliveries)
            && if exists t :: HasWork(r, t)
               then Potential(r', maxDeliveries) < Potential(r, maxDeliveries)
               else r'.streams == r.streams && r'.dlq == r.dlq
  {
    if FirstBusy(r) == |r.rotation| {
      ClaimNextIsRoundRobin(r);
      assert forall t :: !HasWork(r, t) by {
        assert forall t <- r.rotation :: !HasWork(r, t);
      }
      var r' := ConsumeOnce(r, succeeded, maxDeliveries);
      assert forall t :: HasWork(r', t) == HasWork(r, t);
    } else {
      BusyTurn(r, succeeded, maxDeliveries);
      UsingDeliveryLowersPotential(r, ConsumeOnce(r, succeeded, maxDeliveries), r.rotation[FirstBusy(r)],
                                   maxDeliveries);
    }
  }

  /** Termination: without new enqueues, after as many turns as there are remaining deliveries no tenant has
      work left, however the handler outcomes fall. */
  lemma {:induction false} QueueDrains(r: Redis, outcomes: seq<bool>, maxDeliveries: int)
    requires AtRest(r, maxDeliveries)
    requires |outcomes| >= Potential(r, maxDeliveries)
    ensures forall t :: !HasWork(Consume(r, outcomes, maxDeliveries), t)
    decreases |outcomes|
  {
    if forall t :: !HasWork(r, t) {
      IdleStaysIdle(r, outcomes, maxDeliveries);
    } else {
      PotentialPositive(r, maxDeliveries);
      ConsumeOnceProgress(r, outcomes[0], maxDeliveries);
      QueueDrains(ConsumeOnce(r, outcomes[0], maxDeliveries), outcomes[1..], maxDeliveries);
    }
  }

  lemma PotentialPositive(r: Redis, maxDeliveries: int)
    requires AtRest(r, maxDeliveries)
    requires exists t :: HasWork(r, t)
    ensures Potential(r, maxDeliveries) > 0
  {
    var f := RemainingMap(r, maxDeliveries);
    forall t | t in r.streams
      ensures f[t] >= 0
      ensures f[t] == 0 ==> !HasWork(r, t)
    {
      RemainingZero(r.streams[t], maxDeliveries);
    }
    PotentialOf(f, r.streams.Keys);
  }

  lemma RemainingZero(st: Stream, maxDeliveries: int)
    requires RestingStream(st, maxDeliveries)
    ensures Remaining(st, maxDeliveries) >= 0
    ensures Remaining(st, maxDeliveries) == 0 ==> st.pending == map[] && st.cursor == |st.entries|
  {
    var n, k := AllowedDeliveries(maxDeliveries), |st.entries| - st.cursor;
    assert k >= 1 ==> n * k >= n;
  }

  lemma {:induction false} IdleStaysIdle(r: Redis, outcomes: seq<bool>, maxDeliveries: int)
    requires AtRest(r, maxDeliveries)
    requires forall t :: !HasWork(r, t)
    ensures forall t :: !HasWork(Consume(r, outcomes, maxDeliveries), t)
    decreases |outcomes|
  {
    if outcomes != [] {
      ClaimNextIsRoundRobin(r);
      ConsumeOnceProgress(r, outcomes[0], maxDeliveries);
      var r' := ConsumeOnce(r, outcomes[0], maxDeliveries);
      assert r'.streams == r.streams;
      assert forall t :: HasWork(r', t) == HasWork(r, t);
      IdleStaysIdle(r', outcomes[1..], maxDeliveries);
    }
  }
}
