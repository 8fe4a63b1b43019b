/** Printing frames and reading them back, for whole streams, and exactly when it works. */
module SseRoundTrip {
  import opened Collections
  import opened SseSplitter
  import opened SseFrames

  /** What the server writes: an event's frame or a heartbeat. */
  datatype Item = Event(e: BufferedEvent) | Heartbeat

  function Render(generation: string, items: seq<Item>): string {
    if items == [] then ""
    else
      (if items[0].Heartbeat? then HEARTBEAT_FRAME else FormatFrame(generation, items[0].e))
      + Render(generation, items[1..])
  }

  function EventsOf(items: seq<Item>): seq<BufferedEvent> {
    if items == [] then []
    else (if items[0].Heartbeat? then [] else [items[0].e]) + EventsOf(items[1..])
  }

  function FramesFor(generation: string, events: seq<BufferedEvent>): (frames: seq<Frame>)
    ensures |frames| == |events|
    ensures forall k :: 0 <= k < |events| ==> frames[k] == FrameFor(generation, events[k])
  {
    seq(|events|, k requires 0 <= k < |events| => FrameFor(generation, events[k]))
  }

  predicate AllPrintable(generation: string, events: seq<BufferedEvent>) {
    forall e <- events :: Printable(generation, e)
  }

  lemma HeartbeatSkipped()
    ensures HEARTBEAT_FRAME == ": heartbeat" + "\n\n" && Uncut(": heartbeat") && ParseBlock(": heartbeat") == None
  {
    var s := ": heartbeat" + "\n";
    assert |s| == 12 && forall i :: 0 <= i < 11 ==> s[i] == ": heartbeat"[i];
  }

  lemma {:induction false} PeelBlock(block: string, tail: string)
    requires Uncut(block)
    ensures SplitBlocks(block + "\n\n" + tail).blocks == [block] + SplitBlocks(tail).blocks
    ensures SplitBlocks(block + "\n\n" + tail).rest == SplitBlocks(tail).rest
  {
    var s := block + "\n\n" + tail;
    FirstBlock(block, tail);
    assert s[..|block|] == block && s[|block| + 2..] == tail;
  }

  lemma ParseFirst(block: string, blocks: seq<string>)
    ensures ParseBlocks([block] + blocks)
         == (if ParseBlock(block).Some? then [ParseBlock(block).value] else []) + ParseBlocks(blocks)
  {
    assert ([block] + blocks)[1..] == blocks;
  }

  function ItemBlock(generation: string, item: Item): string {
    if item.Heartbeat? then ": heartbeat" else BlockFor(generation, item.e)
  }

  lemma ItemRenders(generation: string, items: seq<Item>)
    requires items != []
    ensures Render(generation, items) == ItemBlock(generation, items[0]) + "\n\n" + Render(generation, items[1..])
  {
    if items[0].Event? {
      BlockOfFrame(generation, items[0].e);
    }
  }

  lemma ItemParses(generation: string, item: Item)
    requires item.Event? ==> Printable(generation, item.e)
    ensures Uncut(ItemBlock(generation, item))
    ensures ParseBlock(ItemBlock(generation, item))
         == if item.Heartbeat? then None else Some(FrameFor(generation, item.e))
  {
    if item.Heartbeat? {
      HeartbeatSkipped();
    } else {
      BlockForIsUncut(generation, item.e);
      ParseBlockFor(generation, item.e);
    }
  }

  lemma ItemFirst(generation: string, item: Item, tail: string)
    requires item.Event? ==> Printable(generation, item.e)
    ensures var text := ItemBlock(generation, item) + "\n\n" + tail;
            && FramesOf(text) == (if item.Heartbeat? then [] else [FrameFor(generation, item.e)]) + FramesOf(tail)
            && SplitBlocks(text).rest == SplitBlocks(tail).rest
  {
    var block := ItemBlock(generation, item);
    ItemParses(generation, item);
    PeelBlock(block, tail);
    ParseFirst(block, SplitBlocks(tail).blocks);
  }

  lemma EventsOfCons(items: seq<Item>)
    requires items != []
    ensures EventsOf(items) == (if items[0].Heartbeat? then [] else [items[0].e]) + EventsOf(items[1..])
    ensures forall e <- EventsOf(items[1..]) :: e in EventsOf(items)
    ensures items[0].Event? ==> items[0].e in EventsOf(items)
  {
  }

  /** Splitting and parsing any concatenation of frames and heartbeats gives back exactly the events' frames, in
      order, with nothing left over. */
  lemma {:induction false} RoundTrip(generation: string, items: seq<Item>)
    requires AllPrintable(generation, EventsOf(items))
    ensures FramesOf(Render(generation, items)) == FramesFor(generation, EventsOf(items))
    ensures SplitBlocks(Render(generation, items)).rest == ""
    decreases |items|
  {
    if items != [] {
      EventsOfCons(items);
      assert AllPrintable(generation, EventsOf(items[1..]));
      RoundTrip(generation, items[1..]);
      ItemRenders(generation, items);
      ItemFirst(generation, items[0], Render(generation, items[1..]));
      FramesForCons(generation, items);
    }
  }

  lemma FramesForCons(generation: string, items: seq<Item>)
    requires items != []
    ensures FramesFor(generation, EventsOf(items))
         == (if items[0].Heartbeat? then [] else [FrameFor(generation, items[0].e)])
            + FramesFor(generation, EventsOf(items[1..]))
  {
  }

  /** A connection that breaks anywhere delivers the frames of an initial segment of the events. */
  lemma BrokenConnection(generation: string, items: seq<Item>, received: string)
    requires AllPrintable(generation, EventsOf(items))
    requires received <= Render(generation, items)
    ensures FramesOf(received) <= FramesFor(generation, EventsOf(items))
  {
    var text := Render(generation, items);
    RoundTrip(generation, items);
    PrefixSplit(received, text);
    var got, all := SplitBlocks(received).blocks, SplitBlocks(text).blocks;
    assert all == got + all[|got|..];
    ParseBlocksAppend(got, all[|got|..]);
  }

  // ---------- The round trip holds exactly for one-line fields ----------

  lemma {:induction false} LinesAreOneLine(s: string)
    ensures forall line <- Lines(s) :: OneLine(line)
    decreases |s|
  {
    if s != "" {
      LinesAreOneLine(s[1..]);
      assert OneLine(Lines(s[1..])[0]);
    }
  }

  /** Characters of the lines with their separators. */
  function Size(lines: seq<string>): nat {
    if lines == [] then 0 else |lines[0]| + 1 + Size(lines[1..])
  }

  lemma {:induction false} SizeOfLines(s: string)
    ensures Size(Lines(s)) == |s| + 1
  {
    if s != "" {
      SizeOfLines(s[1..]);
      assert Lines(s)[1..] == if s[0] == '\n' then Lines(s[1..]) else Lines(s[1..])[1..];
    }
  }

  lemma {:induction false} SizeAppend(a: seq<string>, b: seq<string>)
    ensures Size(a + b) == Size(a) + Size(b)
  {
    if a == [] {
      assert a + b == b;
    } else {
      assert (a + b)[1..] == a[1..] + b;
      SizeAppend(a[1..], b);
    }
  }

  lemma {:induction false} SizeOfJoin(lines: seq<string>)
    requires lines != []
    ensures |JoinLines(lines)| + 1 == Size(lines)
  {
    if |lines| > 1 {
      SizeOfJoin(lines[1..]);
    }
  }

  /** Reading lines keeps ids and event names on one line, and every data line costs six characters more than
      it gives. */
  lemma {:induction false} ReadingShrinks(f: Fields, lines: seq<string>)
    requires forall line <- lines :: OneLine(line)
    requires f.id.Some? ==> OneLine(f.id.value)
    requires OneLine(f.event) && forall d <- f.dataLines :: OneLine(d)
    ensures var g := ReadLines(f, lines);
            && (g.id.Some? ==> OneLine(g.id.value)) && (f.id.Some? ==> g.id.Some?)
            && OneLine(g.event) && (forall d <- g.dataLines :: OneLine(d))
            && |g.dataLines| >= |f.dataLines|
            && Size(g.dataLines) - Size(f.dataLines) + 6 * (|g.dataLines| - |f.dataLines|) <= Size(lines)
    decreases |lines|
  {
    if lines != [] {
      var line := lines[0];
      assert OneLine(line);
      var next := ReadLine(f, line);
      if "data: " <= line && !("id: " <= line) && !("event: " <= line) {
        SizeAppend(f.dataLines, [line[6..]]);
      }
      ReadingShrinks(next, lines[1..]);
    }
  }

  /** The first block of a printed frame, when only the data may span lines. */
  lemma FirstBlockOf(generation: string, e: BufferedEvent)
    requires OneLine(generation) && OneLine(e.eventType)
    ensures var text, head := FormatFrame(generation, e), "id: " + FrameId(generation, e.seq_) + "\n"
                                                          + ("event: " + e.eventType + "\n");
            var i := IndexOfDelimiter(text);
            && i >= |head| && i <= |head| + 6 + |e.data|
            && text[..i] == head + text[|head|..i]
  {
    var text := FormatFrame(generation, e);
    var idLine, eventLine := "id: " + FrameId(generation, e.seq_), "event: " + e.eventType;
    var head := idLine + "\n" + (eventLine + "\n");
    BlockOfFrame(generation, e);
    assert text == head + ("data: " + e.data + "\n\n");
    assert DelimiterAt(text, |head| + 6 + |e.data|);
    forall j | 0 <= j < |head|
      ensures !DelimiterAt(text, j)
    {
      assert OneLine(idLine) && OneLine(eventLine);
      if j < |idLine| {
        assert text[j] == idLine[j];
      } else if j == |idLine| {
        assert text[j + 1] == eventLine[0] == 'e';
      } else if j < |head| - 1 {
        assert text[j] == eventLine[j - |idLine| - 1];
      } else {
        assert text[j + 1] == ("data: " + e.data + "\n\n")[0] == 'd';
      }
    }
  }

  /** A printed frame reads back as itself if and only if generation id, event name and data have no newline. */
  lemma RoundTripExactlyWhenPrintable(generation: string, e: BufferedEvent)
    ensures FramesOf(FormatFrame(generation, e)) == [FrameFor(generation, e)] <==> Printable(generation, e)
  {
    var text := FormatFrame(generation, e);
    if Printable(generation, e) {
      assert Render(generation, [Event(e)]) == text;
      assert [Event(e)][1..] == [];
      assert EventsOf([Event(e)]) == [e];
      RoundTrip(generation, [Event(e)]);
    } else {
      var i := IndexOfDelimiter(text);
      FormatEndsInDelimiter(generation, e);
      var block := text[..i];
      ParseFirst(block, SplitBlocks(text[i + 2..]).blocks);
      LinesAreOneLine(block);
      ReadingShrinks(NO_FIELDS, Lines(block));
      if FramesOf(text) == [FrameFor(generation, e)] {
        StartsWithId(generation, e, block);
        assert FramesOf(text)[0] == ParseBlock(block).value;
        assert OneLine(FrameId(generation, e.seq_)) && OneLine(e.eventType);
        assert OneLine(generation) by {
          assert forall c <- generation :: c in FrameId(generation, e.seq_);
        }
        DataTooLong(generation, e, block);
      }
    }
  }

  lemma FormatEndsInDelimiter(generation: string, e: BufferedEvent)
    ensures IndexOfDelimiter(FormatFrame(generation, e)) >= 3
  {
    var text := FormatFrame(generation, e);
    BlockOfFrame(generation, e);
    assert DelimiterAt(text, |text| - 2);
    assert text[0] == 'i' && text[1] == 'd' && text[2] == ':' && text[3] == ' ';
  }

  /** The first block always yields a frame, because it starts with an id line. */
  lemma StartsWithId(generation: string, e: BufferedEvent, block: string)
    requires var i := IndexOfDelimiter(FormatFrame(generation, e)); i >= 0 && block == FormatFrame(generation, e)[..i]
    ensures ParseBlock(block).Some? && ParseBlock(block) == FrameOf(ReadLines(NO_FIELDS, Lines(block)))
  {
    FormatEndsInDelimiter(generation, e);
    var text := FormatFrame(generation, e);
    assert text[3] == ' ' && IndexOfDelimiter(text) != 3;
    assert "id: " <= block;
    var tail := block[4..];
    assert block == "id: " + tail;
    LinesAreOneLine(block);
    FirstLineKeepsPrefix(tail);
    var lines := Lines(block);
    assert OneLine(lines[0]) && OneLine(lines[0][4..]);
    ReadingShrinks(ReadLine(NO_FIELDS, lines[0]), lines[1..]);
    assert block[0] == 'i' && !IsBlank('i') && 'i' in block;
  }

  lemma FirstLineKeepsPrefix(tail: string)
    ensures "id: " <= Lines("id: " + tail)[0]
  {
    var s := "id: " + tail;
    assert s[1..] == "d: " + tail && s[1..][1..] == ": " + tail && s[1..][1..][1..] == " " + tail
           && s[1..][1..][1..][1..] == tail;
    var l4 := Lines(tail)[0];
    assert Lines(" " + tail)[0] == [' '] + l4;
    assert Lines(": " + tail)[0] == [':'] + ([' '] + l4);
    assert Lines("d: " + tail)[0] == ['d'] + ([':'] + ([' '] + l4));
  }

  /** Data with a newline cannot come back: each further data line would have cost more text than there is. */
  lemma DataTooLong(generation: string, e: BufferedEvent, block: string)
    requires OneLine(generation) && OneLine(e.eventType) && !OneLine(e.data)
    requires var i := IndexOfDelimiter(FormatFrame(generation, e)); i >= 0 && block == FormatFrame(generation, e)[..i]
    ensures FrameOf(ReadLines(NO_FIELDS, Lines(block))) != Some(FrameFor(generation, e))
  {
    var idLine, eventLine := "id: " + FrameId(generation, e.seq_), "event: " + e.eventType;
    FirstBlockOf(generation, e);
    var head := idLine + "\n" + (eventLine + "\n");
    var dataPart := block[|head|..];
    assert block == idLine + "\n" + (eventLine + "\n" + dataPart);
    LinesCons(idLine, eventLine + "\n" + dataPart);
    LinesCons(eventLine, dataPart);
    var lines := Lines(dataPart);
    var f2 := ReadLine(ReadLine(NO_FIELDS, idLine), eventLine);
    assert eventLine[0] == 'e' && f2.dataLines == [];
    assert Lines(block) == [idLine] + ([eventLine] + lines);
    TwoLinesRead(idLine, eventLine, lines);
    DataIsNotRead(f2, dataPart, e.data);
  }

  lemma TwoLinesRead(a: string, b: string, lines: seq<string>)
    ensures ReadLines(NO_FIELDS, [a] + ([b] + lines)) == ReadLines(ReadLine(ReadLine(NO_FIELDS, a), b), lines)
  {
    HeadAndTail([a], [b] + lines);
    HeadAndTail([b], lines);
    assert [a][1..] + ([b] + lines) == [b] + lines && [b][1..] + lines == lines;
  }

  /** No text of at most six characters more than the data reads as data with a newline in it. */
  lemma DataIsNotRead(f: Fields, dataPart: string, data: string)
    requires f.dataLines == [] && OneLine(f.event) && (f.id.Some? ==> OneLine(f.id.value))
    requires !OneLine(data) && |dataPart| <= 6 + |data|
    ensures JoinLines(ReadLines(f, Lines(dataPart)).dataLines) != data
  {
    var lines := Lines(dataPart);
    LinesAreOneLine(dataPart);
    ReadingShrinks(f, lines);
    SizeOfLines(dataPart);
    var g := ReadLines(f, lines);
    if |g.dataLines| == 1 {
      assert OneLine(JoinLines(g.dataLines));
    } else if |g.dataLines| >= 2 {
      SizeOfJoin(g.dataLines);
      assert |JoinLines(g.dataLines)| + 1 + 12 <= |dataPart| + 1 <= 6 + |data| + 1;
    }
  }
}
