/** One frame of the event stream: printed by the server, parsed and deduplicated by the browser. The format is
    a subset of Server-sent events, sections 9.2.5 and 9.2.6 of the WHATWG HTML standard. */
module SseFrames {
  import opened Collections
  import opened SseSplitter

  // ---------- Decimal numbers ----------

  function Digit(d: nat): char
    requires d < 10
  {
    '0' + d as char
  }

  predicate IsDigit(c: char) {
    '0' <= c <= '9'
  }

  function ToDecimal(n: nat): (s: string)
    ensures s != "" && forall c <- s :: IsDigit(c)
  {
    if n < 10 then [Digit(n)] else ToDecimal(n / 10) + [Digit(n % 10)]
  }

  function DecimalValue(s: string): nat
    requires forall c <- s :: IsDigit(c)
  {
    if s == "" then 0
    else
      assert IsDigit(s[|s| - 1]);
      10 * DecimalValue(s[..|s| - 1]) + (s[|s| - 1] as int - '0' as int)
  }

  /** Number(text) for the spellings that occur: digits, or nothing (which is 0); any other text is NaN here. */
  function ToNumber(s: string): Option<nat> {
    if forall c <- s :: IsDigit(c) then Some(DecimalValue(s)) else None
  }

  lemma {:induction false} DecimalRoundTrip(n: nat)
    ensures ToNumber(ToDecimal(n)) == Some(n)
  {
    var s := ToDecimal(n);
    assert (Digit(n % 10) as int - '0' as int) == n % 10;
    if n < 10 {
      assert s[..|s| - 1] == "";
      assert DecimalValue(s) == n;
    } else {
      DecimalRoundTrip(n / 10);
      assert s[..|s| - 1] == ToDecimal(n / 10);
    }
  }

  // ---------- The server's side ----------

  datatype BufferedEvent = BufferedEvent(seq_: nat, eventType: string, data: string)

  const HEARTBEAT_FRAME := ": heartbeat\n\n"

  function FrameId(generation: string, n: nat): string {
    generation + ":" + ToDecimal(n)
  }

  function FormatFrame(generation: string, e: BufferedEvent): string {
    "id: " + FrameId(generation, e.seq_) + "\nevent: " + e.eventType + "\ndata: " + e.data + "\n\n"
  }

  // ---------- The browser's side ----------

  /** `Json` is the joined data text, which JSON.parse would go on to read (or hand on raw). */
  datatype Data = Null | Json(raw: string)

  datatype Frame = Frame(id: Option<string>, event: string, data: Data)

  datatype Fields = Fields(id: Option<string>, event: string, dataLines: seq<string>)

  const NO_FIELDS := Fields(None, "message", [])

  /** The characters String.prototype.trim removes. */
  predicate IsBlank(c: char) {
    || c in "\t\n\U{0B}\U{0C}\r \U{A0}\U{1680}\U{2028}\U{2029}\U{202F}\U{205F}\U{3000}\U{FEFF}"
    || '\U{2000}' <= c <= '\U{200A}'
  }

  function Lines(s: string): (lines: seq<string>)
    ensures lines != []
  {
    if s == "" then [""]
    else
      var tail := Lines(s[1..]);
      if s[0] == '\n' then [""] + tail else [[s[0]] + tail[0]] + tail[1..]
  }

  function JoinLines(lines: seq<string>): string {
    if lines == [] then "" else if |lines| == 1 then lines[0] else lines[0] + "\n" + JoinLines(lines[1..])
  }

  function ReadLine(f: Fields, line: string): Fields {
    if "id: " <= line then f.(id := Some(line[4..]))
    else if "event: " <= line then f.(event := line[7..])
    else if "data: " <= line then f.(dataLines := f.dataLines + [line[6..]])
    else f
  }

  function ReadLines(f: Fields, lines: seq<string>): Fields
    decreases |lines|
  {
    if lines == [] then f else ReadLines(ReadLine(f, lines[0]), lines[1..])
  }

  function FrameOf(f: Fields): Option<Frame> {
    if f.id.None? && f.dataLines == [] then None
    else
      var raw := JoinLines(f.dataLines);
      Some(Frame(f.id, f.event, if raw == "" then Null else Json(raw)))
  }

  function ParseBlock(block: string): Option<Frame> {
    if ":" <= block || forall c <- block :: IsBlank(c) then None
    else FrameOf(ReadLines(NO_FIELDS, Lines(block)))
  }

  method ParseSseBlock(block: string) returns (frame: Option<Frame>)
    ensures frame == ParseBlock(block)
  {
    if ":" <= block || forall c <- block :: IsBlank(c) {
      return None;
    }
    var fields := NO_FIELDS;
    var lines := Lines(block);
    for i := 0 to |lines|
      invariant ReadLines(fields, lines[i..]) == ReadLines(NO_FIELDS, lines)
    {
      assert lines[i..][0] == lines[i] && lines[i..][1..] == lines[i + 1..];
      fields := ReadLine(fields, lines[i]);
    }
    return FrameOf(fields);
  }

  // ---------- What a block says ----------

  /** What the last line that begins so goes on with; the prefixes exclude each other. */
  function LastField(lines: seq<string>, prefix: string): Option<string> {
    if lines == [] then None
    else
      var last := lines[|lines| - 1];
      if prefix <= last then Some(last[|prefix|..]) else LastField(lines[..|lines| - 1], prefix)
  }

  /** What the lines that begin so go on with, with line breaks between. */
  function JoinedFields(lines: seq<string>, prefix: string): Option<string> {
    if lines == [] then None
    else
      var last, before := lines[|lines| - 1], JoinedFields(lines[..|lines| - 1], prefix);
      if !(prefix <= last) then before
      else if before.None? then Some(last[|prefix|..])
      else Some(before.value + "\n" + last[|prefix|..])
  }

  lemma {:induction false} JoinLinesSnoc(lines: seq<string>, line: string)
    ensures JoinLines(lines + [line]) == if lines == [] then line else JoinLines(lines) + "\n" + line
  {
    if lines == [] {
      assert lines + [line] == [line];
    } else {
      HeadAndTail(lines, [line]);
      JoinLinesSnoc(lines[1..], line);
      if |lines| > 1 {
        Associate(lines[0] + "\n", JoinLines(lines[1..]), "\n" + line);
        assert JoinLines(lines[1..]) + "\n" + line == JoinLines(lines[1..]) + ("\n" + line);
        assert JoinLines(lines) + "\n" + line == JoinLines(lines) + ("\n" + line);
      }
    }
  }

  lemma {:induction false} ReadLinesSnoc(f: Fields, lines: seq<string>, line: string)
    ensures ReadLines(f, lines + [line]) == ReadLine(ReadLines(f, lines), line)
    decreases |lines|
  {
    if lines == [] {
      assert lines + [line] == [line] && [line][1..] == [];
    } else {
      HeadAndTail(lines, [line]);
      ReadLinesSnoc(ReadLine(f, lines[0]), lines[1..], line);
    }
  }

  lemma OnePrefix(line: string)
    ensures !("id: " <= line && "event: " <= line) && !("id: " <= line && "data: " <= line)
    ensures !("event: " <= line && "data: " <= line)
  {
    assert "id: " <= line ==> line[0] == "id: "[0];
    assert "event: " <= line ==> line[0] == "event: "[0];
    assert "data: " <= line ==> line[0] == "data: "[0];
  }

  lemma {:induction false} FieldsMeaning(lines: seq<string>)
    ensures var f, data := ReadLines(NO_FIELDS, lines), JoinedFields(lines, "data: ");
            && f.id == LastField(lines, "id: ")
            && f.event == (if LastField(lines, "event: ").Some? then LastField(lines, "event: ").value else "message")
            && (f.dataLines == [] <==> data.None?)
            && (data.Some? ==> data.value == JoinLines(f.dataLines))
    decreases |lines|
  {
    if lines != [] {
      var front, last := lines[..|lines| - 1], lines[|lines| - 1];
      assert lines == front + [last];
      FieldsMeaning(front);
      ReadLinesSnoc(NO_FIELDS, front, last);
      OnePrefix(last);
      JoinLinesSnoc(ReadLines(NO_FIELDS, front).dataLines, if "data: " <= last then last[6..] else "");
    }
  }

  /** What a block is parsed to: nothing for a comment, a blank block, or one with neither id nor data; else the last
      id, the last event name, "message" if there is none, and all data lines with line breaks between. */
  lemma ParseMeaning(block: string)
    ensures var lines := Lines(block);
            var id, name, data := LastField(lines, "id: "), LastField(lines, "event: "), JoinedFields(lines, "data: ");
            ParseBlock(block) ==
            if ":" <= block || (forall c <- block :: IsBlank(c)) || (id.None? && data.None?) then None
            else Some(Frame(id, if name.Some? then name.value else "message",
                            if data.None? || data.value == "" then Null else Json(data.value)))
  {
    FieldsMeaning(Lines(block));
  }

  function ParseBlocks(blocks: seq<string>): (frames: seq<Frame>)
    ensures |frames| <= |blocks|
  {
    if blocks == [] then []
    else
      var frame := ParseBlock(blocks[0]);
      (if frame.Some? then [frame.value] else []) + ParseBlocks(blocks[1..])
  }

  lemma {:induction false} ParseBlocksAppend(a: seq<string>, b: seq<string>)
    ensures ParseBlocks(a + b) == ParseBlocks(a) + ParseBlocks(b)
  {
    if a == [] {
      assert a + b == b;
    } else {
      HeadAndTail(a, b);
      ParseBlocksAppend(a[1..], b);
      var frame := ParseBlock(a[0]);
      Associate(if frame.Some? then [frame.value] else [], ParseBlocks(a[1..]), ParseBlocks(b));
    }
  }

  /** The frames of a text, in order. */
  function FramesOf(text: string): seq<Frame> {
    ParseBlocks(SplitBlocks(text).blocks)
  }

  method ParseAll(blocks: seq<string>) returns (frames: seq<Frame>)
    ensures frames == ParseBlocks(blocks)
  {
    frames := [];
    for i := 0 to |blocks|
      invariant frames == ParseBlocks(blocks[..i])
    {
      var frame := ParseSseBlock(blocks[i]);
      assert blocks[..i + 1] == blocks[..i] + [blocks[i]];
      ParseBlocksAppend(blocks[..i], [blocks[i]]);
      assert ParseBlocks([blocks[i]]) == if frame.Some? then [frame.value] else [];
      if frame.Some? {
        frames := frames + [frame.value];
      }
    }
    assert blocks[..|blocks|] == blocks;
  }

  lemma FramesOfMore(text: string, more: string)
    ensures FramesOf(text + more) == FramesOf(text) + ParseBlocks(SplitBlocks(SplitBlocks(text).rest + more).blocks)
  {
    SplitAppend(text, more);
    ParseBlocksAppend(SplitBlocks(text).blocks, SplitBlocks(SplitBlocks(text).rest + more).blocks);
  }

  /** The reading loop over the chunks that arrive before the stream ends or the reader aborts: the frames it
      yields do not depend on how the network cut the text. */
  method StreamSse(chunks: seq<string>) returns (frames: seq<Frame>)
    ensures frames == FramesOf(Concat(chunks))
  {
    var buffer := "";
    frames := [];
    for i := 0 to |chunks|
      invariant buffer == SplitBlocks(Concat(chunks[..i])).rest
      invariant frames == FramesOf(Concat(chunks[..i]))
    {
      ConcatTake(chunks, i);
      SplitAppend(Concat(chunks[..i]), chunks[i]);
      FramesOfMore(Concat(chunks[..i]), chunks[i]);
      var blocks, rest := SplitSseBlocks(buffer + chunks[i]);
      buffer := rest;
      var more := ParseAll(blocks);
      frames := frames + more;
    }
    assert chunks[..|chunks|] == chunks;
  }

  // ---------- Round trip ----------

  predicate OneLine(s: string) {
    '\n' !in s
  }

  /** What JSON text, a UUID and the fixed event names all satisfy. */
  predicate Printable(generation: string, e: BufferedEvent) {
    OneLine(generation) && OneLine(e.eventType) && OneLine(e.data)
  }

  function FrameFor(generation: string, e: BufferedEvent): Frame {
    Frame(Some(FrameId(generation, e.seq_)), e.eventType, if e.data == "" then Null else Json(e.data))
  }

  lemma {:induction false} LinesOfLine(s: string)
    requires OneLine(s)
    ensures Lines(s) == [s]
  {
    if s != "" {
      LinesOfLine(s[1..]);
      assert [s[0]] + s[1..] == s;
    }
  }

  lemma {:induction false} LinesCons(line: string, tail: string)
    requires OneLine(line)
    ensures Lines(line + "\n" + tail) == [line] + Lines(tail)
  {
    var s := line + "\n" + tail;
    if line == "" {
      assert s[1..] == tail;
    } else {
      assert s[1..] == line[1..] + "\n" + tail;
      LinesCons(line[1..], tail);
      assert [line[0]] + line[1..] == line;
    }
  }

  function BlockFor(generation: string, e: BufferedEvent): string {
    "id: " + FrameId(generation, e.seq_) + "\n" + ("event: " + e.eventType + "\n" + ("data: " + e.data))
  }

  lemma BlockOfFrame(generation: string, e: BufferedEvent)
    ensures FormatFrame(generation, e) == BlockFor(generation, e) + "\n\n"
  {
    assert "\nevent: " == "\n" + "event: ";
    assert "\ndata: " == "\n" + "data: ";
  }

  lemma ReadFields(id: string, event: string, data: string)
    ensures ReadLine(ReadLine(ReadLine(NO_FIELDS, "id: " + id), "event: " + event), "data: " + data)
            == Fields(Some(id), event, [data])
  {
    var f1 := ReadLine(NO_FIELDS, "id: " + id);
    assert f1 == Fields(Some(id), "message", []);
    assert ("event: " + event)[0] == 'e';
    var f2 := ReadLine(f1, "event: " + event);
    assert f2 == Fields(Some(id), event, []);
    assert ("data: " + data)[0] == 'd';
  }

  lemma ParseBlockFor(generation: string, e: BufferedEvent)
    requires Printable(generation, e)
    ensures ParseBlock(BlockFor(generation, e)) == Some(FrameFor(generation, e))
  {
    var idLine := "id: " + FrameId(generation, e.seq_);
    var eventLine := "event: " + e.eventType;
    var dataLine := "data: " + e.data;
    var block := BlockFor(generation, e);
    LinesCons(idLine, eventLine + "\n" + dataLine);
    LinesCons(eventLine, dataLine);
    LinesOfLine(dataLine);
    assert Lines(block) == [idLine, eventLine, dataLine];
    assert block[0] == 'i' && !IsBlank('i') && 'i' in block;
    ThreeLines(idLine, eventLine, dataLine);
    ReadFields(FrameId(generation, e.seq_), e.eventType, e.data);
    assert JoinLines([e.data]) == e.data;
  }

  lemma ThreeLines(a: string, b: string, c: string)
    ensures ReadLines(NO_FIELDS, [a, b, c]) == ReadLine(ReadLine(ReadLine(NO_FIELDS, a), b), c)
  {
    var f1, f2 := ReadLine(NO_FIELDS, a), ReadLine(ReadLine(NO_FIELDS, a), b);
    assert [a, b, c][1..] == [b, c] && [b, c][1..] == [c];
    assert ReadLines(NO_FIELDS, [a, b, c]) == ReadLines(f1, [b, c]);
    assert ReadLines(f1, [b, c]) == ReadLines(f2, [c]);
    assert ReadLines(f2, [c]) == ReadLine(f2, c);
  }

  lemma BlockForIsUncut(generation: string, e: BufferedEvent)
    requires Printable(generation, e)
    ensures Uncut(BlockFor(generation, e))
  {
    var idLine := "id: " + FrameId(generation, e.seq_);
    var eventLine := "event: " + e.eventType;
    var dataLine := "data: " + e.data;
    var s := BlockFor(generation, e) + "\n";
    var i, j, k := |idLine|, |idLine| + 1 + |eventLine|, |s| - 1;
    assert s == idLine + "\n" + eventLine + "\n" + dataLine + "\n";
    forall n | 0 <= n < |s| && n != i && n != j && n != k
      ensures s[n] != '\n'
    {
      assert OneLine(idLine) && OneLine(eventLine) && OneLine(dataLine);
      if n < i {
        assert s[n] == idLine[n];
      } else if n < j {
        assert s[n] == eventLine[n - i - 1];
      } else {
        assert s[n] == dataLine[n - j - 1];
      }
    }
  }

  // ---------- Deduplication ----------

  function LastColon(s: string): (i: int)
    ensures -1 <= i < |s| && (i >= 0 ==> s[i] == ':')
    ensures forall j :: i < j < |s| ==> s[j] != ':'
  {
    if s == "" then -1
    else if s[|s| - 1] == ':' then |s| - 1
    else LastColon(s[..|s| - 1])
  }

  /** The number after the last colon of a frame id. */
  function SeqOf(id: string): Option<nat> {
    ToNumber(id[LastColon(id) + 1..])
  }

  /** The number printed into an id comes back whatever the generation part looks like, colons included. */
  lemma SeqRecovered(generation: string, n: nat)
    ensures SeqOf(FrameId(generation, n)) == Some(n)
  {
    var id, digits := FrameId(generation, n), ToDecimal(n);
    assert forall j :: |generation| < j < |id| ==> id[j] == digits[j - |generation| - 1];
    assert id[|generation|] == ':';
    assert forall j :: 0 <= j < |digits| ==> IsDigit(digits[j]);
    assert LastColon(id) == |generation|;
    assert id[|generation| + 1..] == digits;
    DecimalRoundTrip(n);
  }

  predicate Admits(lastSeq: int, frame: Frame) {
    frame.id.None? || (SeqOf(frame.id.value).Some? && SeqOf(frame.id.value).value > lastSeq)
  }

  function NextSeq(lastSeq: int, frame: Frame): int {
    if Admits(lastSeq, frame) && frame.id.Some? then SeqOf(frame.id.value).value else lastSeq
  }

  class SeqDeduper {
    var lastSeq: int

    constructor ()
      ensures lastSeq == -1
    {
      lastSeq := -1;
    }

    method Admit(frame: Frame) returns (admitted: bool)
      modifies this`lastSeq
      ensures admitted == Admits(old(lastSeq), frame)
      ensures lastSeq == NextSeq(old(lastSeq), frame)
      ensures frame.id.None? ==> admitted
      ensures frame.id.Some? ==>
                (admitted <==> SeqOf(frame.id.value).Some? && SeqOf(frame.id.value).value > old(lastSeq))
      ensures lastSeq == if admitted && frame.id.Some? then SeqOf(frame.id.value).value else old(lastSeq)
    {
      if frame.id.None? {
        return true;
      }
      var n := SeqOf(frame.id.value);
      if n.None? || n.value <= lastSeq {
        return false;
      }
      lastSeq := n.value;
      return true;
    }
  }
}
