/** The last stage in the browser: tokens collected and shown at most once per animation frame. */
module ChatStream {
  import opened Collections
  import opened SseFrames

  /** `content` is what the store shows, None while no stream is active. */
  datatype Ui = Ui(content: Option<string>, pending: string, scheduled: bool)

  function Flush(ui: Ui): Ui {
    if ui.content.None? then ui else ui.(content := Some(ui.pending))
  }

  function Append(ui: Ui, delta: string): Ui {
    ui.(pending := ui.pending + delta, scheduled := true)
  }

  /** The requestAnimationFrame callback, when one is due. */
  function AnimationFrame(ui: Ui): Ui {
    if ui.scheduled then Flush(ui.(scheduled := false)) else ui
  }

  class ChatStreamStore {
    var content: Option<string>

    constructor ()
      ensures content == None
    {
      content := None;
    }

    method Begin()
      modifies this
      ensures content == Some("")
    {
      content := Some("");
    }

    method FlushContent(accumulated: string)
      modifies this
      ensures content == if old(content).None? then None else Some(accumulated)
    {
      if content.Some? {
        content := Some(accumulated);
      }
    }
  }

  class RafBatcher {
    const store: ChatStreamStore
    var pending: string
    var scheduled: bool

    constructor (store: ChatStreamStore)
      ensures this.store == store && View() == Ui(store.content, "", false)
    {
      this.store := store;
      pending := "";
      scheduled := false;
    }

    function View(): Ui
      reads this, store
    {
      Ui(store.content, pending, scheduled)
    }

    method AppendDelta(delta: string)
      modifies this
      ensures View() == Append(old(View()), delta)
      ensures pending == old(pending) + delta && scheduled
    {
      pending := pending + delta;
      if !scheduled {
        scheduled := true;
      }
    }

    /** A write that is due happens now, and then none is due; otherwise nothing changes. */
    method RunAnimationFrame()
      modifies this, store
      ensures View() == AnimationFrame(old(View()))
      ensures !scheduled && pending == old(pending)
      ensures old(scheduled) && old(store.content).Some? ==> store.content == Some(pending)
      ensures !old(scheduled) || old(store.content).None? ==> store.content == old(store.content)
    {
      if scheduled {
        scheduled := false;
        store.FlushContent(pending);
      }
    }

    method FlushNow()
      modifies store
      ensures View() == Flush(old(View()))
      ensures store.content == if old(store.content).Some? then Some(pending) else None
    {
      store.FlushContent(pending);
    }
  }

  /** What the message loop does with an admitted frame; `delta` reads the token text out of the frame's data. */
  function HandleFrame(ui: Ui, frame: Frame, delta: Data -> string): Ui {
    if frame.event == "meta" then ui.(content := Some(""))
    else if frame.event == "token" then Append(ui, delta(frame.data))
    else if frame.event == "done" then Flush(ui)
    else ui
  }

  function TokenText(frames: seq<Frame>, delta: Data -> string): string {
    if frames == [] then ""
    else (if frames[0].event == "token" then delta(frames[0].data) else "") + TokenText(frames[1..], delta)
  }

  lemma {:induction false} TokenTextAppend(a: seq<Frame>, b: seq<Frame>, delta: Data -> string)
    ensures TokenText(a + b, delta) == TokenText(a, delta) + TokenText(b, delta)
  {
    if a == [] {
      assert a + b == b;
    } else {
      HeadAndTail(a, b);
      TokenTextAppend(a[1..], b, delta);
      Associate(if a[0].event == "token" then delta(a[0].data) else "", TokenText(a[1..], delta), TokenText(b, delta));
    }
  }

  /** Handle the frames in order; ticks[k] says whether an animation frame comes just before the k-th. */
  function HandleAll(ui: Ui, frames: seq<Frame>, ticks: seq<bool>, delta: Data -> string): Ui
    requires |ticks| == |frames|
    decreases |frames|
  {
    if frames == [] then ui
    else
      HandleAll(HandleFrame(if ticks[0] then AnimationFrame(ui) else ui, frames[0], delta), frames[1..], ticks[1..],
                delta)
  }

  /** What is shown is always an initial part of what arrived, and all of it unless a callback is due. */
  ghost predicate Showing(ui: Ui) {
    ui.content.Some? ==> ui.content.value <= ui.pending && (ui.scheduled || ui.content.value == ui.pending)
  }

  /** At every moment of a stream the shown text is an initial part of the token text so far, and a store write
      is due whenever it is not all of it. */
  lemma {:induction false} ShowsPrefix(ui: Ui, frames: seq<Frame>, ticks: seq<bool>, delta: Data -> string)
    requires |ticks| == |frames| && Showing(ui) && ui.content.Some?
    requires forall f <- frames :: f.event != "meta"
    ensures var end := HandleAll(ui, frames, ticks, delta);
            Showing(end) && end.content.Some? && end.pending == ui.pending + TokenText(frames, delta)
    decreases |frames|
  {
    if frames != [] {
      var ticked := if ticks[0] then AnimationFrame(ui) else ui;
      var next := HandleFrame(ticked, frames[0], delta);
      assert frames[0].event != "meta";
      ShowsPrefix(next, frames[1..], ticks[1..], delta);
      assert TokenText(frames, delta)
          == (if frames[0].event == "token" then delta(frames[0].data) else "") + TokenText(frames[1..], delta);
    }
  }

  /** One animation frame catches up: whatever was handled since meta and whatever was written before, it leaves the
      whole token text on the screen and no write due. */
  lemma FrameCatchesUp(frames: seq<Frame>, ticks: seq<bool>, delta: Data -> string)
    requires |ticks| == |frames| && frames != [] && frames[0].event == "meta"
    requires forall k :: 0 < k < |frames| ==> frames[k].event != "meta"
    ensures var text, end := TokenText(frames, delta), HandleAll(Ui(None, "", false), frames, ticks, delta);
            AnimationFrame(end) == Ui(Some(text), text, false)
  {
    BegunStream(frames, ticks, delta);
  }

  /** A stream that began with meta, at any moment. */
  lemma BegunStream(frames: seq<Frame>, ticks: seq<bool>, delta: Data -> string)
    requires |ticks| == |frames| && frames != [] && frames[0].event == "meta"
    requires forall k :: 0 < k < |frames| ==> frames[k].event != "meta"
    ensures var end := HandleAll(Ui(None, "", false), frames, ticks, delta);
            Showing(end) && end.content.Some? && end.pending == TokenText(frames, delta)
  {
    var meta, body := frames[0], frames[1..];
    assert frames == [meta] + body && ticks == [ticks[0]] + ticks[1..];
    HandleAllAppend(Ui(None, "", false), [meta], body, [ticks[0]], ticks[1..], delta);
    MetaBegins(meta, ticks[0], delta);
    ShowsPrefix(Ui(Some(""), "", false), body, ticks[1..], delta);
    TokenTextAppend([meta], body, delta);
    NoTokenText(meta, delta);
    assert "" + TokenText(body, delta) == TokenText(body, delta);
  }

  /** A done frame shows everything that arrived, with or without an animation frame just before it. */
  lemma DoneFlushes(ui: Ui, frame: Frame, tick: bool, delta: Data -> string)
    requires frame.event == "done" && ui.content.Some?
    ensures HandleAll(ui, [frame], [tick], delta).content == Some(ui.pending)
  {
    var ticked := if tick then AnimationFrame(ui) else ui;
    assert [frame][1..] == [] && [tick][1..] == [];
    assert HandleAll(ui, [frame], [tick], delta) == HandleAll(HandleFrame(ticked, frame, delta), [], [], delta);
  }

  lemma MetaBegins(frame: Frame, tick: bool, delta: Data -> string)
    requires frame.event == "meta"
    ensures HandleAll(Ui(None, "", false), [frame], [tick], delta) == Ui(Some(""), "", false)
  {
    assert [frame][1..] == [] && [tick][1..] == [];
  }

  /** When a stream that began with meta reaches its done frame, the store shows the whole token text, whatever
      animation frames came in between. */
  lemma DoneShowsEverything(frames: seq<Frame>, ticks: seq<bool>, delta: Data -> string)
    requires |ticks| == |frames| && |frames| >= 2
    requires frames[0].event == "meta" && frames[|frames| - 1].event == "done"
    requires forall k :: 0 < k < |frames| ==> frames[k].event != "meta"
    ensures HandleAll(Ui(None, "", false), frames, ticks, delta).content == Some(TokenText(frames, delta))
  {
    var n := |frames| - 1;
    var body, t := frames[1..n], ticks[1..n];
    FirstMiddleLast(frames);
    FirstMiddleLast(ticks);
    assert forall f <- body :: f.event != "meta";
    WholeStream(frames[0], body, frames[n], ticks[0], t, ticks[n], delta);
  }

  lemma FirstMiddleLast<T>(s: seq<T>)
    requires |s| >= 2
    ensures s == [s[0]] + (s[1..|s| - 1] + [s[|s| - 1]])
  {
  }

  lemma WholeStream(meta: Frame, body: seq<Frame>, done: Frame, t0: bool, t: seq<bool>, t2: bool,
                    delta: Data -> string)
    requires |t| == |body| && meta.event == "meta" && done.event == "done"
    requires forall f <- body :: f.event != "meta"
    ensures var frames := [meta] + (body + [done]);
            HandleAll(Ui(None, "", false), frames, [t0] + (t + [t2]), delta).content == Some(TokenText(frames, delta))
  {
    var begun := Ui(Some(""), "", false);
    HandleAllAppend(Ui(None, "", false), [meta], body + [done], [t0], t + [t2], delta);
    MetaBegins(meta, t0, delta);
    HandleAllAppend(begun, body, [done], t, [t2], delta);
    ShowsPrefix(begun, body, t, delta);
    DoneFlushes(HandleAll(begun, body, t, delta), done, t2, delta);
    TokenTextAppend([meta], body + [done], delta);
    TokenTextAppend(body, [done], delta);
    NoTokenText(meta, delta);
    NoTokenText(done, delta);
    assert TokenText(body, delta) + "" == TokenText(body, delta);
    assert "" + TokenText(body, delta) == TokenText(body, delta);
  }

  lemma NoTokenText(frame: Frame, delta: Data -> string)
    requires frame.event != "token"
    ensures TokenText([frame], delta) == ""
  {
    assert [frame][1..] == [];
  }

  lemma {:induction false} HandleAllAppend(ui: Ui, a: seq<Frame>, b: seq<Frame>, s: seq<bool>, t: seq<bool>,
                                           delta: Data -> string)
    requires |s| == |a| && |t| == |b|
    ensures HandleAll(ui, a + b, s + t, delta) == HandleAll(HandleAll(ui, a, s, delta), b, t, delta)
    decreases |a|
  {
    if a == [] {
      assert a + b == b && s + t == t;
    } else {
      assert (a + b)[1..] == a[1..] + b && (s + t)[1..] == s[1..] + t;
      HandleAllAppend(HandleFrame(if s[0] then AnimationFrame(ui) else ui, a[0], delta), a[1..], b, s[1..], t, delta);
    }
  }
}
