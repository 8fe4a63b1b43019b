/** The streaming pipeline from producer to screen: exactly-once rendering over at-least-once delivery. */
module StreamPipeline {
  import opened Collections
  import opened SseSplitter
  import opened SseFrames
  import opened SseRoundTrip
  import opened StreamBuffer
  import opened ChatStream

  /** One connection: it resumes after a seq, the server polls what the snapshots hold, and the network delivers
      the chunks before the connection ends or breaks. */
  datatype Session = Session(after: int, snapshots: seq<seq<BufferedEvent>>, chunks: seq<string>)

  /** The frames the deduper lets through, and its counter afterwards. */
  function Admitted(lastSeq: int, frames: seq<Frame>): seq<Frame>
    decreases |frames|
  {
    if frames == [] then []
    else
      (if Admits(lastSeq, frames[0]) then [frames[0]] else []) + Admitted(NextSeq(lastSeq, frames[0]), frames[1..])
  }

  function SeqAfter(lastSeq: int, frames: seq<Frame>): int
    decreases |frames|
  {
    if frames == [] then lastSeq else SeqAfter(NextSeq(lastSeq, frames[0]), frames[1..])
  }

  lemma {:induction false} AdmittedSnoc(lastSeq: int, frames: seq<Frame>, frame: Frame)
    ensures var n := SeqAfter(lastSeq, frames);
            && Admitted(lastSeq, frames + [frame])
               == Admitted(lastSeq, frames) + (if Admits(n, frame) then [frame] else [])
            && SeqAfter(lastSeq, frames + [frame]) == NextSeq(n, frame)
    decreases |frames|
  {
    if frames == [] {
      assert [] + [frame] == [frame] && [frame][1..] == [];
    } else {
      HeadAndTail(frames, [frame]);
      var next := NextSeq(lastSeq, frames[0]);
      AdmittedSnoc(next, frames[1..], frame);
      Associate(if Admits(lastSeq, frames[0]) then [frames[0]] else [], Admitted(next, frames[1..]),
                if Admits(SeqAfter(next, frames[1..]), frame) then [frame] else []);
    }
  }

  method AdmitAll(dedupe: SeqDeduper, frames: seq<Frame>) returns (admitted: seq<Frame>)
    modifies dedupe
    ensures admitted == Admitted(old(dedupe.lastSeq), frames)
    ensures dedupe.lastSeq == SeqAfter(old(dedupe.lastSeq), frames)
  {
    admitted := [];
    ghost var first := dedupe.lastSeq;
    for k := 0 to |frames|
      invariant admitted == Admitted(first, frames[..k])
      invariant dedupe.lastSeq == SeqAfter(first, frames[..k])
    {
      TakeOneMore(frames, k);
      AdmittedSnoc(first, frames[..k], frames[k]);
      var isNew := dedupe.Admit(frames[k]);
      if isNew {
        admitted := admitted + [frames[k]];
      }
    }
    assert frames[..|frames|] == frames;
  }

  /** The reader's loop over one connection, with a deduper that outlives it. */
  method ReadSession(dedupe: SeqDeduper, chunks: seq<string>) returns (admitted: seq<Frame>)
    modifies dedupe
    ensures admitted == Admitted(old(dedupe.lastSeq), FramesOf(Concat(chunks)))
    ensures dedupe.lastSeq == SeqAfter(old(dedupe.lastSeq), FramesOf(Concat(chunks)))
  {
    var frames := StreamSse(chunks);
    admitted := AdmitAll(dedupe, frames);
  }

  function ReceiveAll(lastSeq: int, sessions: seq<Session>): seq<Frame>
    decreases |sessions|
  {
    if sessions == [] then []
    else
      var frames := FramesOf(Concat(sessions[0].chunks));
      Admitted(lastSeq, frames) + ReceiveAll(SeqAfter(lastSeq, frames), sessions[1..])
  }

  /** Each connection resumes at or below the last admitted seq, every poll sees an initial segment of the run,
      and what arrives is an initial part of what the server sent. */
  ghost predicate Delivered(generation: string, events: seq<BufferedEvent>, lastSeq: int, sessions: seq<Session>)
    decreases |sessions|
  {
    sessions != [] ==>
      var s := sessions[0];
      && s.after <= lastSeq
      && SnapshotsOf(s.snapshots, events)
      && Concat(s.chunks) <= Render(generation, Follow(s.snapshots, s.after, 0.0).items)
      && Delivered(generation, events, SeqAfter(lastSeq, FramesOf(Concat(s.chunks))), sessions[1..])
  }

  ghost predicate CompletedBy(generation: string, s: Session) {
    var f := Follow(s.snapshots, s.after, 0.0);
    f.finished && Concat(s.chunks) == Render(generation, f.items)
  }

  /** Some connection delivered everything up to done. */
  ghost predicate Completed(generation: string, sessions: seq<Session>) {
    exists s <- sessions :: CompletedBy(generation, s)
  }

  /** The deduper's counter after admitting the first m events. */
  function LastOf(events: seq<BufferedEvent>, m: nat): int
    requires m <= |events|
  {
    if m == 0 then -1 else events[m - 1].seq_
  }

  lemma AdmitsNext(generation: string, events: seq<BufferedEvent>, k: nat, m: nat)
    requires Increasing(events) && k < |events| && k <= m <= |events|
    ensures var frame, last := FrameFor(generation, events[k]), LastOf(events, m);
            && (Admits(last, frame) <==> k == m)
            && NextSeq(last, frame) == LastOf(events, if k == m then m + 1 else m)
  {
    SeqRecovered(generation, events[k].seq_);
  }

  lemma FramesCons(generation: string, events: seq<BufferedEvent>, k: nat, upTo: nat)
    requires k < upTo <= |events|
    ensures FramesFor(generation, events[k..upTo])
         == [FrameFor(generation, events[k])] + FramesFor(generation, events[k + 1..upTo])
  {
  }

  /** Of a contiguous run that overlaps what was admitted, exactly the new part is admitted. */
  lemma {:induction false} AdmittedRun(generation: string, events: seq<BufferedEvent>, k: nat, upTo: nat, m: nat)
    requires Increasing(events) && k <= upTo <= |events| && k <= m <= |events|
    ensures var reached, frames := if upTo > m then upTo else m, FramesFor(generation, events[k..upTo]);
            && Admitted(LastOf(events, m), frames) == FramesFor(generation, events[m..reached])
            && SeqAfter(LastOf(events, m), frames) == LastOf(events, reached)
    decreases upTo - k
  {
    if k < upTo {
      var frames, later := FramesFor(generation, events[k..upTo]), FramesFor(generation, events[k + 1..upTo]);
      var frame := FrameFor(generation, events[k]);
      FramesCons(generation, events, k, upTo);
      assert frames[1..] == later;
      AdmitsNext(generation, events, k, m);
      if k == m {
        AdmittedRun(generation, events, k + 1, upTo, m + 1);
      } else {
        AdmittedRun(generation, events, k + 1, upTo, m);
      }
    }
  }

  /** What one connection delivers, as a run of the producer's events. */
  lemma SessionFrames(generation: string, events: seq<BufferedEvent>, s: Session)
    returns (upTo: nat)
    requires ProducerRun(events) && AllPrintable(generation, events)
    requires SnapshotsOf(s.snapshots, events)
    requires Concat(s.chunks) <= Render(generation, Follow(s.snapshots, s.after, 0.0).items)
    ensures CountUpTo(events, s.after) <= upTo <= |events|
    ensures FramesOf(Concat(s.chunks)) == FramesFor(generation, events[CountUpTo(events, s.after)..upTo])
    ensures CompletedBy(generation, s) ==> upTo == |events|
  {
    var f, text := Follow(s.snapshots, s.after, 0.0), Concat(s.chunks);
    var c := CountUpTo(events, s.after);
    var sent := FollowIsContiguous(events, s.snapshots, s.after, 0.0);
    assert AllPrintable(generation, EventsOf(f.items)) by {
      assert forall e <- events[c..sent] :: e in events;
    }
    assert FramesOf(text) <= FramesFor(generation, events[c..sent]) by {
      BrokenConnection(generation, f.items, text);
    }
    upTo := c + |FramesOf(text)|;
    FramesOfPrefix(generation, events, c, sent, FramesOf(text));
    if CompletedBy(generation, s) {
      RoundTrip(generation, f.items);
    }
  }

  lemma FramesOfPrefix(generation: string, events: seq<BufferedEvent>, c: nat, sent: nat, frames: seq<Frame>)
    requires c <= sent <= |events| && frames <= FramesFor(generation, events[c..sent])
    ensures c + |frames| <= sent && frames == FramesFor(generation, events[c..c + |frames|])
  {
  }

  /** One connection extends the admitted events contiguously; a complete one reaches the end. */
  lemma OneSession(generation: string, events: seq<BufferedEvent>, m: nat, s: Session)
    returns (reached: nat)
    requires ProducerRun(events) && AllPrintable(generation, events) && m <= |events|
    requires s.after <= LastOf(events, m) && SnapshotsOf(s.snapshots, events)
    requires Concat(s.chunks) <= Render(generation, Follow(s.snapshots, s.after, 0.0).items)
    ensures m <= reached <= |events|
    ensures Admitted(LastOf(events, m), FramesOf(Concat(s.chunks))) == FramesFor(generation, events[m..reached])
    ensures SeqAfter(LastOf(events, m), FramesOf(Concat(s.chunks))) == LastOf(events, reached)
    ensures CompletedBy(generation, s) ==> reached == |events|
  {
    var c := CountUpTo(events, s.after);
    assert m < |events| ==> events[m].seq_ > s.after;
    assert c <= m;
    var upTo := SessionFrames(generation, events, s);
    AdmittedRun(generation, events, c, upTo, m);
    reached := if upTo > m then upTo else m;
  }

  lemma FramesForSplit(generation: string, events: seq<BufferedEvent>, a: nat, b: nat, c: nat)
    requires a <= b <= c <= |events|
    ensures FramesFor(generation, events[a..b]) + FramesFor(generation, events[b..c])
         == FramesFor(generation, events[a..c])
  {
  }

  lemma CompletedSomewhere(generation: string, sessions: seq<Session>)
    requires sessions != [] && Completed(generation, sessions)
    ensures CompletedBy(generation, sessions[0]) || Completed(generation, sessions[1..])
  {
    var s :| s in sessions && CompletedBy(generation, s);
    if s != sessions[0] {
      assert s in sessions[1..];
    }
  }

  /** Exactly once, in order: over any number of connections, whatever is polled, cut, chunked, broken off and
      resent, the admitted frames are the first m events, each once and in seq order; and all of them as soon as
      one connection ran to its done event. */
  lemma {:induction false} ExactlyOnce(generation: string, events: seq<BufferedEvent>, m: nat,
                                       sessions: seq<Session>)
    returns (reached: nat)
    requires ProducerRun(events) && AllPrintable(generation, events) && m <= |events|
    requires Delivered(generation, events, LastOf(events, m), sessions)
    ensures m <= reached <= |events|
    ensures ReceiveAll(LastOf(events, m), sessions) == FramesFor(generation, events[m..reached])
    ensures Completed(generation, sessions) ==> reached == |events|
    decreases |sessions|
  {
    reached := m;
    if sessions != [] {
      var next := OneSession(generation, events, m, sessions[0]);
      reached := ExactlyOnce(generation, events, next, sessions[1..]);
      FramesForSplit(generation, events, m, next, reached);
      if Completed(generation, sessions) {
        CompletedSomewhere(generation, sessions);
      }
    }
  }

  /** The event grammar: meta first and only there. */
  ghost predicate MetaFirst(events: seq<BufferedEvent>) {
    |events| >= 2 && forall k :: 0 <= k < |events| ==> (events[k].eventType == "meta" <==> k == 0)
  }

  /** The deltas of a run's token events, concatenated. */
  ghost function Reply(events: seq<BufferedEvent>, delta: Data -> string): string {
    if events == [] then ""
    else
      (if events[0].eventType == "token" then delta(if events[0].data == "" then Null else Json(events[0].data))
       else "") + Reply(events[1..], delta)
  }

  lemma {:induction false} ReplyIsTokenText(generation: string, events: seq<BufferedEvent>, delta: Data -> string)
    ensures TokenText(FramesFor(generation, events), delta) == Reply(events, delta)
  {
    if events != [] {
      assert FramesFor(generation, events)[1..] == FramesFor(generation, events[1..]);
      ReplyIsTokenText(generation, events[1..], delta);
    }
  }

  /** End to end: once some connection ran to done, the screen shows the concatenated deltas, each exactly once. */
  lemma EndToEnd(generation: string, events: seq<BufferedEvent>, sessions: seq<Session>, ticks: seq<bool>,
                 delta: Data -> string)
    requires ProducerRun(events) && MetaFirst(events) && AllPrintable(generation, events)
    requires Delivered(generation, events, -1, sessions) && Completed(generation, sessions)
    requires |ticks| == |events|
    ensures var admitted := ReceiveAll(-1, sessions);
            && admitted == FramesFor(generation, events)
            && HandleAll(Ui(None, "", false), admitted, ticks, delta).content == Some(Reply(events, delta))
  {
    var reached := ExactlyOnce(generation, events, 0, sessions);
    assert events[0..|events|] == events;
    var frames := FramesFor(generation, events);
    DoneShowsEverything(frames, ticks, delta);
    ReplyIsTokenText(generation, events, delta);
  }

  lemma {:induction false} ReplyGrows(events: seq<BufferedEvent>, m: nat, delta: Data -> string)
    requires m <= |events|
    ensures Reply(events[..m], delta) <= Reply(events, delta)
  {
    if m > 0 {
      assert events[..m][1..] == events[1..][..m - 1];
      ReplyGrows(events[1..], m - 1, delta);
    }
  }

  /** At every moment, complete or not: the m events admitted so far are the first m of the run, the screen shows an
      initial part of the reply, and of the deltas of those m events it shows all unless a store write is due; the next
      animation frame shows them all. */
  lemma ScreenShowsPrefix(generation: string, events: seq<BufferedEvent>, sessions: seq<Session>, ticks: seq<bool>,
                          delta: Data -> string)
    requires ProducerRun(events) && MetaFirst(events) && AllPrintable(generation, events)
    requires Delivered(generation, events, -1, sessions) && |ticks| == |ReceiveAll(-1, sessions)|
    ensures var m, end := |ticks|, HandleAll(Ui(None, "", false), ReceiveAll(-1, sessions), ticks, delta);
            && m <= |events|
            && (end.content.Some? <==> m > 0)
            && (m > 0 ==> end.content.value <= Reply(events, delta))
            && (m > 0 ==> end.scheduled || end.content.value == Reply(events[..m], delta))
            && (m > 0 ==> AnimationFrame(end).content == Some(Reply(events[..m], delta)))
            && !AnimationFrame(end).scheduled
  {
    var m := ExactlyOnce(generation, events, 0, sessions);
    var frames := FramesFor(generation, events[..m]);
    assert ReceiveAll(-1, sessions) == frames && |frames| == m by {
      assert events[0..m] == events[..m];
    }
    ReplyGrows(events, m, delta);
    ReplyIsTokenText(generation, events[..m], delta);
    if m > 0 {
      BegunStream(frames, ticks, delta);
      FrameCatchesUp(frames, ticks, delta);
    }
  }

  /** As Delivered, with every poll reading the buffer as the producer's appends, repeats included, have filled it. */
  ghost predicate DeliveredBy(generation: string, events: seq<BufferedEvent>, appends: seq<nat>, lastSeq: int,
                              sessions: seq<Session>)
    requires ProducerAppends(events, appends)
    decreases |sessions|
  {
    sessions != [] ==>
      var s := sessions[0];
      && s.after <= lastSeq
      && Polls(s.snapshots, events, appends)
      && Concat(s.chunks) <= Render(generation, Follow(s.snapshots, s.after, 0.0).items)
      && DeliveredBy(generation, events, appends, SeqAfter(lastSeq, FramesOf(Concat(s.chunks))), sessions[1..])
  }

  lemma {:induction false} PolledIsDelivered(generation: string, events: seq<BufferedEvent>, appends: seq<nat>,
                                             lastSeq: int, sessions: seq<Session>)
    requires Increasing(events) && ProducerAppends(events, appends)
    requires DeliveredBy(generation, events, appends, lastSeq, sessions)
    ensures Delivered(generation, events, lastSeq, sessions)
    decreases |sessions|
  {
    if sessions != [] {
      PollsSeePrefixes(sessions[0].snapshots, events, appends);
      PolledIsDelivered(generation, events, appends, SeqAfter(lastSeq, FramesOf(Concat(sessions[0].chunks))),
                        sessions[1..]);
    }
  }

  /** From the producer's appends to the screen: at-least-once appends, polls at any times, resumes, chunking and
      breaks in between, and each delta is shown exactly once. */
  lemma ProducerToScreen(generation: string, events: seq<BufferedEvent>, appends: seq<nat>, sessions: seq<Session>,
                         ticks: seq<bool>, delta: Data -> string)
    requires ProducerRun(events) && MetaFirst(events) && AllPrintable(generation, events)
    requires ProducerAppends(events, appends) && DeliveredBy(generation, events, appends, -1, sessions)
    requires Completed(generation, sessions) && |ticks| == |events|
    ensures var admitted := ReceiveAll(-1, sessions);
            && admitted == FramesFor(generation, events)
            && HandleAll(Ui(None, "", false), admitted, ticks, delta).content == Some(Reply(events, delta))
  {
    PolledIsDelivered(generation, events, appends, -1, sessions);
    EndToEnd(generation, events, sessions, ticks, delta);
  }
}
