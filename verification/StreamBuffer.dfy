/** The replay buffer of one generation, and the server loop that follows it. */
module StreamBuffer {
  import opened Collections
  import opened SseFrames
  import opened SseRoundTrip

  // ---------- The sorted set ----------

  predicate Sorted(z: seq<BufferedEvent>) {
    forall i, j :: 0 <= i < j < |z| ==> z[i].seq_ <= z[j].seq_
  }

  lemma InsertedSorted(z: seq<BufferedEvent>, e: BufferedEvent, n: nat)
    requires Sorted(z) && n <= |z|
    requires (forall i :: 0 <= i < n ==> z[i].seq_ <= e.seq_) && (n < |z| ==> z[n].seq_ > e.seq_)
    ensures Sorted(z[..n] + [e] + z[n..])
    ensures multiset(z[..n] + [e] + z[n..]) == multiset(z) + multiset{e}
  {
    assert z == z[..n] + z[n..];
  }

  /** ZADD: a member already there stays where it is; a new one goes behind the scores up to its own. */
  function Zadd(z: seq<BufferedEvent>, e: BufferedEvent): (z': seq<BufferedEvent>)
    requires Sorted(z)
    ensures Sorted(z') && multiset(z') == if e in z then multiset(z) else multiset(z) + multiset{e}
  {
    if e in z then z
    else
      var n := CountUpTo(z, e.seq_);
      InsertedSorted(z, e, n);
      z[..n] + [e] + z[n..]
  }

  /** How many leading members have a score of at most the given one. */
  function CountUpTo(z: seq<BufferedEvent>, score: int): (n: nat)
    ensures n <= |z|
    ensures forall i :: 0 <= i < n ==> z[i].seq_ <= score
    ensures n < |z| ==> z[n].seq_ > score
  {
    if z == [] || z[0].seq_ > score then 0 else 1 + CountUpTo(z[1..], score)
  }

  /** ZRANGEBYSCORE after+1 +inf. */
  function ReadAfter(z: seq<BufferedEvent>, after: int): seq<BufferedEvent> {
    z[CountUpTo(z, after)..]
  }

  /** read_after is exactly the events beyond the given seq, in seq order, whichever replica asks. */
  lemma ReadAfterMeaning(z: seq<BufferedEvent>, after: int)
    requires Sorted(z)
    ensures Sorted(ReadAfter(z, after))
    ensures forall e :: e in ReadAfter(z, after) <==> e in z && e.seq_ > after
  {
    var n := CountUpTo(z, after);
    SuffixSorted(z, n);
    InSuffix(z, n, after);
  }

  lemma SuffixSorted(z: seq<BufferedEvent>, n: nat)
    requires Sorted(z) && n <= |z|
    ensures Sorted(z[n..])
  {
  }

  lemma InSuffix(z: seq<BufferedEvent>, n: nat, after: int)
    requires n <= |z| && (forall i :: 0 <= i < n ==> z[i].seq_ <= after)
    requires forall i :: n <= i < |z| ==> z[i].seq_ > after
    ensures forall e :: e in z[n..] <==> e in z && e.seq_ > after
  {
    forall e | e in z && e.seq_ > after
      ensures e in z[n..]
    {
      var i :| 0 <= i < |z| && z[i] == e;
      assert i >= n && z[n..][i - n] == e;
    }
  }

  /** ZADD of a new member and ZRANGEBYSCORE, member by member. */
  function Insert(z: seq<BufferedEvent>, e: BufferedEvent): seq<BufferedEvent> {
    if z == [] || z[0].seq_ > e.seq_ then [e] + z else [z[0]] + Insert(z[1..], e)
  }

  function Later(z: seq<BufferedEvent>, after: int): seq<BufferedEvent> {
    if z == [] || z[0].seq_ > after then z else Later(z[1..], after)
  }

  lemma {:induction false} InsertIs(z: seq<BufferedEvent>, e: BufferedEvent)
    ensures var n := CountUpTo(z, e.seq_); Insert(z, e) == z[..n] + [e] + z[n..]
  {
    if z != [] && z[0].seq_ <= e.seq_ {
      InsertIs(z[1..], e);
      var n := CountUpTo(z[1..], e.seq_);
      assert z[..n + 1] == [z[0]] + z[1..][..n] && z[n + 1..] == z[1..][n..];
    }
  }

  lemma {:induction false} LaterIs(z: seq<BufferedEvent>, after: int)
    ensures Later(z, after) == ReadAfter(z, after)
  {
    if z != [] && z[0].seq_ <= after {
      LaterIs(z[1..], after);
      DropOne(z, 0);
      assert z[1..][CountUpTo(z[1..], after)..] == z[CountUpTo(z, after)..];
    }
  }

  lemma {:induction false} LaterOfInsert(z: seq<BufferedEvent>, e: BufferedEvent, after: int)
    ensures Later(Insert(z, e), after) == if e.seq_ > after then Insert(Later(z, after), e) else Later(z, after)
  {
    if z == [] || z[0].seq_ > e.seq_ {
      assert ([e] + z)[1..] == z;
    } else {
      assert ([z[0]] + Insert(z[1..], e))[1..] == Insert(z[1..], e);
      LaterOfInsert(z[1..], e, after);
    }
  }

  lemma ZaddIsInsert(z: seq<BufferedEvent>, e: BufferedEvent)
    requires Sorted(z)
    ensures Zadd(z, e) == if e in z then z else Insert(z, e)
  {
    InsertIs(z, e);
  }

  /** Reading after an append: readers that are past the event see what they saw, the others get it in its place. */
  lemma AppendThenRead(z: seq<BufferedEvent>, e: BufferedEvent, after: int)
    requires Sorted(z) && Sorted(ReadAfter(z, after))
    ensures ReadAfter(Zadd(z, e), after) ==
            if e.seq_ > after then Zadd(ReadAfter(z, after), e) else ReadAfter(z, after)
  {
    ReadAfterMeaning(z, after);
    assert e in ReadAfter(z, after) <==> e in z && e.seq_ > after;
    ZaddIsInsert(z, e);
    ZaddIsInsert(ReadAfter(z, after), e);
    LaterIs(z, after);
    LaterIs(Insert(z, e), after);
    LaterOfInsert(z, e, after);
  }

  class RedisStreamBuffer {
    var zset: seq<BufferedEvent>

    ghost predicate Valid()
      reads this
    {
      Sorted(zset)
    }

    constructor ()
      ensures Valid() && zset == []
    {
      zset := [];
    }

    /** The event is there, once, for every reader it is new to; a repeated append changes nothing. */
    method Append(e: BufferedEvent)
      requires Valid()
      modifies this
      ensures Valid()
      ensures multiset(zset) == if e in old(zset) then multiset(old(zset)) else multiset(old(zset)) + multiset{e}
      ensures e in old(zset) ==> zset == old(zset)
      ensures forall after: int :: ReadAfter(zset, after) ==
                if e.seq_ > after then Zadd(ReadAfter(old(zset), after), e) else ReadAfter(old(zset), after)
    {
      forall after: int
        ensures Sorted(ReadAfter(zset, after))
        ensures ReadAfter(Zadd(zset, e), after) ==
                if e.seq_ > after then Zadd(ReadAfter(zset, after), e) else ReadAfter(zset, after)
      {
        ReadAfterMeaning(zset, after);
        AppendThenRead(zset, e, after);
      }
      zset := Zadd(zset, e);
    }

    method Read(after: int) returns (events: seq<BufferedEvent>)
      requires Valid()
      ensures forall e :: e in events <==> e in zset && e.seq_ > after
      ensures events == ReadAfter(zset, after)
    {
      ReadAfterMeaning(zset, after);
      events := ReadAfter(zset, after);
    }
  }

  // ---------- Producer runs ----------

  const DONE_EVENT_TYPE := "done"

  ghost predicate Increasing(events: seq<BufferedEvent>) {
    forall i, j :: 0 <= i < j < |events| ==> events[i].seq_ < events[j].seq_
  }

  /** One generation: strictly increasing seqs, ending in its only done event. */
  ghost predicate ProducerRun(events: seq<BufferedEvent>) {
    && events != [] && Increasing(events)
    && forall i :: 0 <= i < |events| ==> (events[i].eventType == DONE_EVENT_TYPE <==> i == |events| - 1)
  }

  lemma {:induction false} CountIs(z: seq<BufferedEvent>, score: int, n: nat)
    requires n <= |z|
    requires forall i :: 0 <= i < n ==> z[i].seq_ <= score
    requires n < |z| ==> z[n].seq_ > score
    ensures CountUpTo(z, score) == n
  {
    if z != [] && z[0].seq_ <= score {
      CountIs(z[1..], score, n - 1);
    }
  }

  lemma AppendNext(events: seq<BufferedEvent>, n: nat)
    requires Increasing(events) && n < |events|
    ensures Sorted(events[..n])
    ensures Zadd(events[..n], events[n]) == events[..n + 1]
  {
    var z := events[..n];
    assert events[n] !in z;
    CountIs(z, events[n].seq_, n);
    assert events[..n] + [events[n]] + [] == events[..n + 1];
  }

  /** A producer's appends, given as positions in its run: each is the next event or repeats an earlier one. */
  ghost predicate AtLeastOnce(appends: seq<nat>, n: nat, total: nat)
    decreases |appends|
  {
    appends != [] ==>
      && appends[0] <= n && appends[0] < total
      && AtLeastOnce(appends[1..], if appends[0] == n then n + 1 else n, total)
  }

  ghost function AppendAll(z: seq<BufferedEvent>, events: seq<BufferedEvent>, appends: seq<nat>): seq<BufferedEvent>
    requires Sorted(z) && forall k <- appends :: k < |events|
    decreases |appends|
  {
    if appends == [] then z
    else
      assert appends[0] in appends && forall k <- appends[1..] :: k in appends;
      AppendAll(Zadd(z, events[appends[0]]), events, appends[1..])
  }

  lemma RepeatedAppend(events: seq<BufferedEvent>, n: nat, k: nat)
    requires Increasing(events) && k < n <= |events|
    ensures Sorted(events[..n]) && Zadd(events[..n], events[k]) == events[..n]
  {
    assert events[..n][k] == events[k];
  }

  lemma PrefixSorted(events: seq<BufferedEvent>, n: nat)
    requires Increasing(events) && n <= |events|
    ensures Sorted(events[..n])
  {
  }

  /** However often a producer repeats an append, the buffer always holds an initial segment of its run. */
  lemma {:induction false} AppendsBuildPrefix(events: seq<BufferedEvent>, appends: seq<nat>, n: nat)
    returns (upTo: nat)
    requires Increasing(events) && n <= |events| && AtLeastOnce(appends, n, |events|)
    requires forall k <- appends :: k < |events|
    ensures Sorted(events[..n])
    ensures n <= upTo <= |events| && AppendAll(events[..n], events, appends) == events[..upTo]
    decreases |appends|
  {
    upTo := n;
    PrefixSorted(events, n);
    if appends != [] {
      var k := appends[0];
      assert forall j <- appends[1..] :: j in appends;
      if k == n {
        AppendNext(events, n);
        upTo := AppendsBuildPrefix(events, appends[1..], n + 1);
      } else {
        RepeatedAppend(events, n, k);
        upTo := AppendsBuildPrefix(events, appends[1..], n);
      }
    }
  }

  /** A producer's appends, each within its run. */
  ghost predicate ProducerAppends(events: seq<BufferedEvent>, appends: seq<nat>) {
    AtLeastOnce(appends, 0, |events|) && forall k <- appends :: k < |events|
  }

  lemma {:induction false} AtLeastOncePrefix(appends: seq<nat>, c: nat, n: nat, total: nat)
    requires c <= |appends| && AtLeastOnce(appends, n, total)
    ensures AtLeastOnce(appends[..c], n, total)
    decreases |appends|
  {
    if c > 0 {
      assert appends[..c][1..] == appends[1..][..c - 1];
      AtLeastOncePrefix(appends[1..], c - 1, if appends[0] == n then n + 1 else n, total);
    }
  }

  /** The buffer after the first c appends. */
  ghost function BufferAt(events: seq<BufferedEvent>, appends: seq<nat>, c: nat): seq<BufferedEvent>
    requires ProducerAppends(events, appends) && c <= |appends|
  {
    assert forall k <- appends[..c] :: k in appends;
    AppendAll([], events, appends[..c])
  }

  /** Each poll sees the buffer after some of the producer's appends. */
  ghost predicate Polls(snapshots: seq<seq<BufferedEvent>>, events: seq<BufferedEvent>, appends: seq<nat>)
    requires ProducerAppends(events, appends)
  {
    forall z <- snapshots :: exists c: nat :: c <= |appends| && z == BufferAt(events, appends, c)
  }

  /** So each poll sees an initial segment of the run, however often the producer repeated itself. */
  lemma PollsSeePrefixes(snapshots: seq<seq<BufferedEvent>>, events: seq<BufferedEvent>, appends: seq<nat>)
    requires Increasing(events) && ProducerAppends(events, appends) && Polls(snapshots, events, appends)
    ensures SnapshotsOf(snapshots, events)
  {
    forall z <- snapshots
      ensures z <= events
    {
      var c: nat :| c <= |appends| && z == BufferAt(events, appends, c);
      BufferIsPrefix(events, appends, c);
    }
  }

  lemma BufferIsPrefix(events: seq<BufferedEvent>, appends: seq<nat>, c: nat)
    requires Increasing(events) && ProducerAppends(events, appends) && c <= |appends|
    ensures BufferAt(events, appends, c) <= events
  {
    assert forall k <- appends[..c] :: k in appends;
    AtLeastOncePrefix(appends, c, 0, |events|);
    FromNothing(events, appends[..c]);
  }

  lemma FromNothing(events: seq<BufferedEvent>, appends: seq<nat>)
    requires Increasing(events) && ProducerAppends(events, appends)
    ensures AppendAll([], events, appends) <= events
  {
    var none := events[..0];
    assert none == [];
    var upTo := AppendsBuildPrefix(events, appends, 0);
  }

  // ---------- Following the buffer ----------

  const HEARTBEAT_INTERVAL := 15.0
  const POLL_INTERVAL := 0.05

  datatype Followed = Followed(items: seq<Item>, finished: bool)

  /** The events sent from one read: up to and including a done event. */
  function UpToDone(events: seq<BufferedEvent>): seq<BufferedEvent> {
    if events == [] || events[0].eventType == DONE_EVENT_TYPE then events[..if events == [] then 0 else 1]
    else [events[0]] + UpToDone(events[1..])
  }

  function Items(events: seq<BufferedEvent>): seq<Item> {
    if events == [] then [] else [Event(events[0])] + Items(events[1..])
  }

  datatype Polled = Polled(items: seq<Item>, cursor: int, elapsed: real, finished: bool)

  function CursorAfter(sent: seq<BufferedEvent>, cursor: int): int {
    if sent == [] then cursor else sent[|sent| - 1].seq_
  }

  function EndsInDone(sent: seq<BufferedEvent>): bool {
    sent != [] && sent[|sent| - 1].eventType == DONE_EVENT_TYPE
  }

  /** One turn of the loop: send what is new, or beat and wait. */
  function PollOnce(z: seq<BufferedEvent>, cursor: int, elapsed: real): Polled {
    var events := ReadAfter(z, cursor);
    if events == [] then
      if elapsed >= HEARTBEAT_INTERVAL then Polled([Heartbeat], cursor, 0.0 + POLL_INTERVAL, false)
      else Polled([], cursor, elapsed + POLL_INTERVAL, false)
    else
      var sent := UpToDone(events);
      Polled(Items(sent), CursorAfter(sent, cursor), 0.0, EndsInDone(sent))
  }

  /** snapshots[k] is what the buffer holds at the k-th poll. */
  function Follow(snapshots: seq<seq<BufferedEvent>>, cursor: int, elapsed: real): Followed
    decreases |snapshots|
  {
    if snapshots == [] then Followed([], false)
    else
      var p := PollOnce(snapshots[0], cursor, elapsed);
      if p.finished then Followed(p.items, true)
      else
        var later := Follow(snapshots[1..], p.cursor, p.elapsed);
        Followed(p.items + later.items, later.finished)
  }

  lemma {:induction false} ItemsSnoc(events: seq<BufferedEvent>, e: BufferedEvent)
    ensures Items(events + [e]) == Items(events) + [Event(e)]
  {
    if events == [] {
      assert events + [e] == [e] && [e][1..] == [];
    } else {
      assert (events + [e])[1..] == events[1..] + [e];
      ItemsSnoc(events[1..], e);
    }
  }

  lemma {:induction false} UpToDoneIs(events: seq<BufferedEvent>, n: nat)
    requires n <= |events|
    requires forall k :: 0 <= k < n ==> events[k].eventType != DONE_EVENT_TYPE
    ensures n < |events| && events[n].eventType == DONE_EVENT_TYPE ==> UpToDone(events) == events[..n + 1]
    ensures n == |events| ==> UpToDone(events) == events
  {
    if n > 0 {
      UpToDoneIs(events[1..], n - 1);
      assert events == [events[0]] + events[1..];
      if n < |events| {
        assert [events[0]] + events[1..][..n] == events[..n + 1];
      }
    }
  }

  /** The inner loop over one read. */
  method SendEvents(events: seq<BufferedEvent>, start: int) returns (items: seq<Item>, cursor: int, finished: bool)
    ensures var sent := UpToDone(events);
            items == Items(sent) && cursor == CursorAfter(sent, start) && finished == EndsInDone(sent)
  {
    items, cursor := [], start;
    for n := 0 to |events|
      invariant items == Items(events[..n])
      invariant cursor == CursorAfter(events[..n], start)
      invariant forall j :: 0 <= j < n ==> events[j].eventType != DONE_EVENT_TYPE
    {
      items := items + [Event(events[n])];
      cursor := events[n].seq_;
      assert events[..n + 1] == events[..n] + [events[n]];
      ItemsSnoc(events[..n], events[n]);
      if events[n].eventType == DONE_EVENT_TYPE {
        UpToDoneIs(events, n);
        return items, cursor, true;
      }
    }
    UpToDoneIs(events, |events|);
    assert events[..|events|] == events;
    return items, cursor, false;
  }

  method Poll(z: seq<BufferedEvent>, cursor: int, elapsed: real) returns (p: Polled)
    ensures p == PollOnce(z, cursor, elapsed)
  {
    var events := ReadAfter(z, cursor);
    if events == [] {
      if elapsed >= HEARTBEAT_INTERVAL {
        return Polled([Heartbeat], cursor, 0.0 + POLL_INTERVAL, false);
      }
      return Polled([], cursor, elapsed + POLL_INTERVAL, false);
    }
    var sent, next, ended := SendEvents(events, cursor);
    return Polled(sent, next, 0.0, ended);
  }

  lemma FollowFrom(snapshots: seq<seq<BufferedEvent>>, k: nat, cursor: int, elapsed: real, p: Polled)
    requires k < |snapshots| && p == PollOnce(snapshots[k], cursor, elapsed)
    ensures var now, later := Follow(snapshots[k..], cursor, elapsed), Follow(snapshots[k + 1..], p.cursor, p.elapsed);
            && now.items == p.items + (if p.finished then [] else later.items)
            && now.finished == (p.finished || later.finished)
  {
    DropOne(snapshots, k);
  }

  method FollowBuffer(snapshots: seq<seq<BufferedEvent>>, afterSeq: int) returns (items: seq<Item>, finished: bool)
    ensures Followed(items, finished) == Follow(snapshots, afterSeq, 0.0)
  {
    items := [];
    var cursor, elapsed := afterSeq, 0.0;
    ghost var whole := Follow(snapshots, afterSeq, 0.0);
    assert snapshots[0..] == snapshots;
    for k := 0 to |snapshots|
      invariant whole.items == items + Follow(snapshots[k..], cursor, elapsed).items
      invariant whole.finished == Follow(snapshots[k..], cursor, elapsed).finished
    {
      var p := Poll(snapshots[k], cursor, elapsed);
      FollowFrom(snapshots, k, cursor, elapsed, p);
      Associate(items, p.items, if p.finished then [] else Follow(snapshots[k + 1..], p.cursor, p.elapsed).items);
      items, cursor, elapsed := items + p.items, p.cursor, p.elapsed;
      if p.finished {
        return items, true;
      }
    }
    return items, false;
  }

  // ---------- When heartbeats come ----------

  /** Polls that find nothing new. */
  ghost predicate Quiet(snapshots: seq<seq<BufferedEvent>>, cursor: int) {
    forall z <- snapshots :: ReadAfter(z, cursor) == []
  }

  function Heartbeats(n: nat): seq<Item> {
    if n == 0 then [] else [Heartbeat] + Heartbeats(n - 1)
  }

  /** Polls that fit in one heartbeat interval. */
  const QUIET_POLLS := 300

  /** k quiet polls so far: every 300 more bring a heartbeat. */
  lemma {:induction false} QuietBeats(snapshots: seq<seq<BufferedEvent>>, cursor: int, k: nat)
    requires Quiet(snapshots, cursor) && 1 <= k <= QUIET_POLLS
    ensures Follow(snapshots, cursor, k as real * POLL_INTERVAL)
         == Followed(Heartbeats((|snapshots| + k - 1) / QUIET_POLLS), false)
    decreases |snapshots|
  {
    if snapshots != [] {
      assert snapshots[0] in snapshots && forall z <- snapshots[1..] :: z in snapshots;
      var elapsed := k as real * POLL_INTERVAL;
      assert elapsed >= HEARTBEAT_INTERVAL <==> k == QUIET_POLLS;
      QuietBeats(snapshots[1..], cursor, if k == QUIET_POLLS then 1 else k + 1);
      assert elapsed + POLL_INTERVAL == (k + 1) as real * POLL_INTERVAL;
      assert 0.0 + POLL_INTERVAL == 1 as real * POLL_INTERVAL;
    }
  }

  /** After anything was sent, n polls that find nothing new bring a heartbeat per full interval of silence and nothing
      else: the first one at the poll that follows 300 silent ones. */
  lemma HeartbeatsInSilence(z: seq<BufferedEvent>, quiet: seq<seq<BufferedEvent>>, cursor: int, elapsed: real)
    requires var sent := UpToDone(ReadAfter(z, cursor));
             sent != [] && !EndsInDone(sent) && Quiet(quiet, sent[|sent| - 1].seq_)
    ensures Follow([z] + quiet, cursor, elapsed) ==
            Followed(Items(UpToDone(ReadAfter(z, cursor)))
                     + Heartbeats(if quiet == [] then 0 else (|quiet| - 1) / QUIET_POLLS), false)
  {
    var sent := UpToDone(ReadAfter(z, cursor));
    assert ([z] + quiet)[1..] == quiet;
    FirstQuiet(quiet, sent[|sent| - 1].seq_);
  }

  lemma FirstQuiet(quiet: seq<seq<BufferedEvent>>, cursor: int)
    requires Quiet(quiet, cursor)
    ensures Follow(quiet, cursor, 0.0) ==
            Followed(Heartbeats(if quiet == [] then 0 else (|quiet| - 1) / QUIET_POLLS), false)
  {
    if quiet != [] {
      assert quiet[0] in quiet && forall z <- quiet[1..] :: z in quiet;
      QuietBeats(quiet[1..], cursor, 1);
      assert 1 as real * POLL_INTERVAL == 0.0 + POLL_INTERVAL;
    }
  }

  // ---------- What a follower sends ----------

  ghost predicate SnapshotsOf(snapshots: seq<seq<BufferedEvent>>, events: seq<BufferedEvent>) {
    forall z <- snapshots :: z <= events
  }

  lemma {:induction false} EventsOfItems(events: seq<BufferedEvent>, more: seq<Item>)
    ensures EventsOf(Items(events) + more) == events + EventsOf(more)
  {
    if events == [] {
      assert Items(events) + more == more;
    } else {
      HeadAndTail(Items(events), more);
      EventsOfItems(events[1..], more);
      Associate([events[0]], events[1..], EventsOf(more));
      assert events == [events[0]] + events[1..];
    }
  }

  lemma ReadFromPrefix(events: seq<BufferedEvent>, n: nat, cursor: int)
    requires n <= |events|
    ensures var c := CountUpTo(events, cursor);
            ReadAfter(events[..n], cursor) == if c < n then events[c..n] else []
  {
    var c := CountUpTo(events, cursor);
    CountIs(events[..n], cursor, if c < n then c else n);
  }

  /** A follower that sends events c, ..., upTo-1, and finishes exactly when it has sent done. */
  ghost predicate Sends(events: seq<BufferedEvent>, f: Followed, c: nat, upTo: nat) {
    && c <= upTo <= |events|
    && EventsOf(f.items) == events[c..upTo]
    && (f.finished <==> c < upTo == |events|)
  }

  lemma FollowWaits(snapshots: seq<seq<BufferedEvent>>, cursor: int, elapsed: real)
    returns (later: Followed)
    requires snapshots != [] && ReadAfter(snapshots[0], cursor) == []
    ensures exists wait :: later == Follow(snapshots[1..], cursor, wait)
    ensures EventsOf(Follow(snapshots, cursor, elapsed).items) == EventsOf(later.items)
    ensures Follow(snapshots, cursor, elapsed).finished == later.finished
  {
    var p := PollOnce(snapshots[0], cursor, elapsed);
    later := Follow(snapshots[1..], cursor, p.elapsed);
    assert ([Heartbeat] + later.items)[1..] == later.items;
    assert [] + later.items == later.items;
  }

  lemma FollowSends(snapshots: seq<seq<BufferedEvent>>, cursor: int, elapsed: real, read: seq<BufferedEvent>)
    requires snapshots != [] && ReadAfter(snapshots[0], cursor) == read && read != [] && UpToDone(read) == read
    ensures Follow(snapshots, cursor, elapsed)
         == if EndsInDone(read) then Followed(Items(read), true)
            else
              var later := Follow(snapshots[1..], read[|read| - 1].seq_, 0.0);
              Followed(Items(read) + later.items, later.finished)
  {
  }

  /** What one read of events[c..n] contains. */
  lemma ReadOf(events: seq<BufferedEvent>, c: nat, n: nat)
    requires ProducerRun(events) && c < n <= |events|
    ensures var read := events[c..n];
            && UpToDone(read) == read && read[|read| - 1] == events[n - 1]
            && (EndsInDone(read) <==> n == |events|)
            && CountUpTo(events, events[n - 1].seq_) == n
  {
    var read := events[c..n];
    UpToDoneIs(read, if n == |events| then |read| - 1 else |read|);
    CountIs(events, events[n - 1].seq_, n);
  }

  /** From any seq on and under any polling schedule, a follower sends a contiguous run of the producer's events
      starting with the first one beyond that seq, and finishes exactly when it has sent done. */
  lemma {:induction false} FollowIsContiguous(events: seq<BufferedEvent>, snapshots: seq<seq<BufferedEvent>>,
                                              cursor: int, elapsed: real)
    returns (upTo: nat)
    requires ProducerRun(events) && SnapshotsOf(snapshots, events)
    ensures Sends(events, Follow(snapshots, cursor, elapsed), CountUpTo(events, cursor), upTo)
    decreases |snapshots|
  {
    var c := CountUpTo(events, cursor);
    upTo := c;
    if snapshots != [] {
      assert snapshots[0] in snapshots && forall z <- snapshots[1..] :: z in snapshots;
      var n := |snapshots[0]|;
      assert snapshots[0] == events[..n];
      ReadFromPrefix(events, n, cursor);
      if c < n {
        upTo := SendRead(events, snapshots, cursor, elapsed, c, n);
      } else {
        var later := FollowWaits(snapshots, cursor, elapsed);
        var wait :| later == Follow(snapshots[1..], cursor, wait);
        upTo := FollowIsContiguous(events, snapshots[1..], cursor, wait);
      }
    }
  }

  lemma {:induction false} SendRead(events: seq<BufferedEvent>, snapshots: seq<seq<BufferedEvent>>,
                                    cursor: int, elapsed: real, c: nat, n: nat)
    returns (upTo: nat)
    requires ProducerRun(events) && snapshots != [] && SnapshotsOf(snapshots[1..], events) && c < n <= |events|
    requires ReadAfter(snapshots[0], cursor) == events[c..n]
    ensures Sends(events, Follow(snapshots, cursor, elapsed), c, upTo)
    decreases |snapshots|, 0
  {
    var read := events[c..n];
    ReadOf(events, c, n);
    FollowSends(snapshots, cursor, elapsed, read);
    if n == |events| {
      EventsOfItems(read, []);
      assert Items(read) + [] == Items(read);
      upTo := n;
    } else {
      upTo := FollowIsContiguous(events, snapshots[1..], events[n - 1].seq_, 0.0);
      EventsOfItems(read, Follow(snapshots[1..], events[n - 1].seq_, 0.0).items);
      JoinSlices(events, c, n, upTo);
    }
  }

  /** When a follower comes to an end: if and only if the seq it resumes after is below done's, and some poll sees the
      done event. A follower resumed at done polls for ever. */
  lemma {:induction false} FollowFinishesIff(events: seq<BufferedEvent>, snapshots: seq<seq<BufferedEvent>>,
                                             cursor: int, elapsed: real)
    requires ProducerRun(events) && SnapshotsOf(snapshots, events)
    ensures Follow(snapshots, cursor, elapsed).finished <==>
            cursor < events[|events| - 1].seq_ && exists z <- snapshots :: events[|events| - 1] in z
    decreases |snapshots|
  {
    var c := CountUpTo(events, cursor);
    BelowDone(events, cursor);
    if snapshots != [] {
      var n := |snapshots[0]|;
      assert snapshots[0] in snapshots && forall z <- snapshots[1..] :: z in snapshots;
      assert snapshots[0] == events[..n];
      SeesDone(events, n);
      assert (exists z <- snapshots :: events[|events| - 1] in z) <==>
             n == |events| || exists z <- snapshots[1..] :: events[|events| - 1] in z by {
        assert snapshots == [snapshots[0]] + snapshots[1..];
      }
      ReadFromPrefix(events, n, cursor);
      if c < n {
        ReadOf(events, c, n);
        FollowSends(snapshots, cursor, elapsed, events[c..n]);
        if n < |events| {
          BelowDone(events, events[n - 1].seq_);
          FollowFinishesIff(events, snapshots[1..], events[n - 1].seq_, 0.0);
        }
      } else {
        var later := FollowWaits(snapshots, cursor, elapsed);
        var wait :| later == Follow(snapshots[1..], cursor, wait);
        FollowFinishesIff(events, snapshots[1..], cursor, wait);
      }
    }
  }

  lemma BelowDone(events: seq<BufferedEvent>, cursor: int)
    requires ProducerRun(events)
    ensures CountUpTo(events, cursor) < |events| <==> cursor < events[|events| - 1].seq_
  {
  }

  lemma SeesDone(events: seq<BufferedEvent>, n: nat)
    requires ProducerRun(events) && n <= |events|
    ensures events[|events| - 1] in events[..n] <==> n == |events|
  {
  }
}
