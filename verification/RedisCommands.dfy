/** The part of Redis that the ingestion queue uses: one function per command, each atomic. */
module RedisCommands {
  import opened Collections

  type TenantId = nat

  /** Stream ids grow with every XADD, so an id is the entry's position in its stream. */
  type MessageId = nat

  datatype Value = Text(text: string) | TenantText(tenant: TenantId) | IdText(id: MessageId) | CountText(count: nat)

  type Payload = map<string, Value>

  /** A stream with its one consumer group: `cursor` entries were delivered at least once, `pending` is the
      group's pending-entries list with its delivery counts. */
  datatype Stream = Stream(entries: seq<Payload>, grouped: bool, cursor: nat, pending: map<MessageId, nat>)

  datatype Redis = Redis(
    rotation: seq<TenantId>,
    members: set<TenantId>,
    streams: map<TenantId, Stream>,
    dlq: seq<Payload>)

  const EMPTY := Redis([], {}, map[], [])

  datatype PendingEntry = PendingEntry(id: MessageId, timesDelivered: nat)

  function StreamOf(r: Redis, t: TenantId): Stream {
    if t in r.streams then r.streams[t] else Stream([], false, 0, map[])
  }

  function SetStream(r: Redis, t: TenantId, st: Stream): Redis {
    r.(streams := r.streams[t := st])
  }

  /** XGROUP CREATE stream ingestion 0 MKSTREAM; an existing group answers BUSYGROUP, which the caller ignores. */
  function XgroupCreate(r: Redis, t: TenantId): Redis {
    var st := StreamOf(r, t);
    if st.grouped then r else SetStream(r, t, Stream(st.entries, true, 0, map[]))
  }

  function Xadd(r: Redis, t: TenantId, p: Payload): Redis {
    var st := StreamOf(r, t);
    SetStream(r, t, st.(entries := st.entries + [p]))
  }

  function Sadd(r: Redis, t: TenantId): (Redis, bool) {
    (r.(members := r.members + {t}), t !in r.members)
  }

  function Srem(r: Redis, t: TenantId): Redis {
    r.(members := r.members - {t})
  }

  function Rpush(r: Redis, t: TenantId): Redis {
    r.(rotation := r.rotation + [t])
  }

  function Lpop(r: Redis): (Redis, Option<TenantId>) {
    if r.rotation == [] then (r, None) else (r.(rotation := r.rotation[1..]), Some(r.rotation[0]))
  }

  lemma {:induction false} LeastExists(ids: set<MessageId>)
    requires ids != {}
    ensures exists least :: least in ids && forall id <- ids :: least <= id
    decreases |ids|
  {
    assert exists some: MessageId :: some in ids;
    var some: MessageId :| some in ids;
    if forall id <- ids :: some <= id {
    } else {
      var smaller :| smaller in ids && smaller < some;
      assert smaller in ids - {some};
      LeastExists(ids - {some});
      var least :| least in ids - {some} && forall id <- ids - {some} :: least <= id;
      forall id | id in ids
        ensures least <= id
      {
        if id == some {
          assert least <= smaller;
        } else {
          assert id in ids - {some};
        }
      }
    }
  }

  /** XPENDING stream ingestion - + 1: the oldest pending entry. */
  function XpendingOldest(r: Redis, t: TenantId): (entry: Option<PendingEntry>)
    ensures entry.None? <==> StreamOf(r, t).pending == map[]
    ensures entry.Some? ==>
              var pending := StreamOf(r, t).pending;
              && entry.value.id in pending
              && entry.value.timesDelivered == pending[entry.value.id]
              && forall id <- pending :: entry.value.id <= id
  {
    var pending := StreamOf(r, t).pending;
    if pending == map[] then None
    else
      assert pending.Keys != {};
      LeastExists(pending.Keys);
      var least :| least in pending.Keys && forall id <- pending.Keys :: least <= id;
      Some(PendingEntry(least, pending[least]))
  }

  /** XCLAIM of one id with no idle time: bumps the delivery count, or claims nothing when the id is not pending. */
  function Xclaim(r: Redis, t: TenantId, id: MessageId): (Redis, Option<Payload>) {
    var st := StreamOf(r, t);
    if id in st.pending && id < |st.entries|
    then (SetStream(r, t, st.(pending := st.pending[id := st.pending[id] + 1])), Some(st.entries[id]))
    else (r, None)
  }

  /** XREADGROUP ... > COUNT 1: the first entry never delivered to the group. */
  function Xreadgroup(r: Redis, t: TenantId): (Redis, Option<(MessageId, Payload)>) {
    var st := StreamOf(r, t);
    if st.cursor < |st.entries|
    then (SetStream(r, t, st.(cursor := st.cursor + 1, pending := st.pending[st.cursor := 1])),
          Some((st.cursor, st.entries[st.cursor])))
    else (r, None)
  }

  function Xack(r: Redis, t: TenantId, id: MessageId): Redis {
    if t in r.streams then
      SetStream(r, t, r.streams[t].(pending := r.streams[t].pending - {id}))
    else r
  }

  function XaddDlq(r: Redis, p: Payload): Redis {
    r.(dlq := r.dlq + [p])
  }

  /** XINFO GROUPS: lag (never delivered) plus pending (delivered, not acknowledged). */
  function Unresolved(r: Redis, t: TenantId): int {
    var st := StreamOf(r, t);
    |st.entries| - st.cursor + |st.pending|
  }

  /** Does the tenant have an undelivered or an unacknowledged message? */
  predicate HasWork(r: Redis, t: TenantId) {
    var st := StreamOf(r, t);
    st.pending != map[] || st.cursor < |st.entries|
  }
}
