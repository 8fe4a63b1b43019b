/** The two provider adapters' incremental stream parsers. JSON decoding is a parameter: it returns what the
    parser reads of a payload, or None where json.loads raises. */
module ProviderStreams {
  import opened Collections
  import opened SseSplitter
  import opened SseFrames

  datatype Chunk = Text(text: string) | Usage(promptTokens: int, completionTokens: int)

  /** Running until the end marker (Stopped) or a malformed payload (Failed). */
  datatype Status = Running | Stopped | Failed

  // ---------- OpenAI wire format ----------

  /** `breaks` when reading the delta raises; the usage has been yielded by then. */
  datatype OpenAiPayload = OpenAiPayload(usage: Option<(int, int)>, delta: Option<string>, breaks: bool)

  datatype OpenAi = OpenAi(out: seq<Chunk>, status: Status)

  predicate Wordless(p: OpenAiPayload) {
    p.breaks || p.delta.None? || p.delta.value == ""
  }

  function PayloadChunks(p: OpenAiPayload): seq<Chunk> {
    (if p.usage.Some? then [Usage(p.usage.value.0, p.usage.value.1)] else [])
    + (if Wordless(p) then [] else [Text(p.delta.value)])
  }

  function OpenAiLine(s: OpenAi, line: string, decode: string -> Option<OpenAiPayload>): OpenAi {
    if s.status != Running || !("data: " <= line) then s
    else if line[6..] == "[DONE]" then s.(status := Stopped)
    else
      match decode(line[6..])
      case None => s.(status := Failed)
      case Some(p) => OpenAi(s.out + PayloadChunks(p), if p.breaks then Failed else Running)
  }

  function OpenAiLines(s: OpenAi, lines: seq<string>, decode: string -> Option<OpenAiPayload>): OpenAi
    decreases |lines|
  {
    if lines == [] then s else OpenAiLines(OpenAiLine(s, lines[0], decode), lines[1..], decode)
  }

  function OpenAiBlocks(s: OpenAi, blocks: seq<string>, decode: string -> Option<OpenAiPayload>): OpenAi
    decreases |blocks|
  {
    if blocks == [] then s else OpenAiBlocks(OpenAiLines(s, Lines(blocks[0]), decode), blocks[1..], decode)
  }

  lemma {:induction false} OpenAiLinesDone(s: OpenAi, lines: seq<string>, decode: string -> Option<OpenAiPayload>)
    requires s.status != Running
    ensures OpenAiLines(s, lines, decode) == s
    decreases |lines|
  {
    if lines != [] {
      OpenAiLinesDone(s, lines[1..], decode);
    }
  }

  lemma {:induction false} OpenAiBlocksDone(s: OpenAi, blocks: seq<string>, decode: string -> Option<OpenAiPayload>)
    requires s.status != Running
    ensures OpenAiBlocks(s, blocks, decode) == s
    decreases |blocks|
  {
    if blocks != [] {
      OpenAiLinesDone(s, Lines(blocks[0]), decode);
      OpenAiBlocksDone(s, blocks[1..], decode);
    }
  }

  lemma {:induction false} OpenAiBlocksAppend(s: OpenAi, a: seq<string>, b: seq<string>,
                                              decode: string -> Option<OpenAiPayload>)
    ensures OpenAiBlocks(s, a + b, decode) == OpenAiBlocks(OpenAiBlocks(s, a, decode), b, decode)
    decreases |a|
  {
    if a == [] {
      assert a + b == b;
    } else {
      assert (a + b)[1..] == a[1..] + b;
      OpenAiBlocksAppend(OpenAiLines(s, Lines(a[0]), decode), a[1..], b, decode);
    }
  }

  method ParseOpenAiBlock(s: OpenAi, block: string, decode: string -> Option<OpenAiPayload>) returns (next: OpenAi)
    requires s.status == Running
    ensures next == OpenAiLines(s, Lines(block), decode)
  {
    next := s;
    var lines := Lines(block);
    for i := 0 to |lines|
      invariant next.status == Running
      invariant OpenAiLines(next, lines[i..], decode) == OpenAiLines(s, lines, decode)
    {
      assert lines[i..][0] == lines[i] && lines[i..][1..] == lines[i + 1..];
      next := OpenAiLine(next, lines[i], decode);
      if next.status != Running {
        OpenAiLinesDone(next, lines[i + 1..], decode);
        return;
      }
    }
  }

  /** The inner loop: take complete blocks off the buffer until none is left or the stream is over. */
  method DrainOpenAi(start: OpenAi, text: string, decode: string -> Option<OpenAiPayload>)
    returns (s: OpenAi, buffer: string)
    requires start.status == Running
    ensures s == OpenAiBlocks(start, SplitBlocks(text).blocks, decode)
    ensures s.status == Running ==> buffer == SplitBlocks(text).rest
  {
    s, buffer := start, text;
    var idx := IndexOfDelimiter(buffer);
    while idx != -1
      invariant s.status == Running && idx == IndexOfDelimiter(buffer)
      invariant OpenAiBlocks(s, SplitBlocks(buffer).blocks, decode)
             == OpenAiBlocks(start, SplitBlocks(text).blocks, decode)
      invariant SplitBlocks(buffer).rest == SplitBlocks(text).rest
      decreases |buffer|
    {
      var block, rest := buffer[..idx], buffer[idx + 2..];
      assert SplitBlocks(buffer).blocks[0] == block && SplitBlocks(buffer).blocks[1..] == SplitBlocks(rest).blocks;
      s := ParseOpenAiBlock(s, block, decode);
      if s.status != Running {
        OpenAiBlocksDone(s, SplitBlocks(rest).blocks, decode);
        return;
      }
      buffer := rest;
      idx := IndexOfDelimiter(buffer);
    }
  }

  lemma OpenAiMoreText(start: OpenAi, text: string, more: string, decode: string -> Option<OpenAiPayload>)
    ensures OpenAiBlocks(start, SplitBlocks(text + more).blocks, decode)
         == OpenAiBlocks(OpenAiBlocks(start, SplitBlocks(text).blocks, decode),
                      SplitBlocks(SplitBlocks(text).rest + more).blocks, decode)
  {
    SplitAppend(text, more);
    OpenAiBlocksAppend(start, SplitBlocks(text).blocks, SplitBlocks(SplitBlocks(text).rest + more).blocks, decode);
  }

  /** Once the stream is over, more text changes nothing. */
  lemma OpenAiStays(start: OpenAi, s: OpenAi, text: string, more: string, decode: string -> Option<OpenAiPayload>)
    requires s == OpenAiBlocks(start, SplitBlocks(text).blocks, decode) && s.status != Running
    ensures OpenAiBlocks(start, SplitBlocks(text + more).blocks, decode) == s
  {
    OpenAiMoreText(start, text, more, decode);
    OpenAiBlocksDone(s, SplitBlocks(SplitBlocks(text).rest + more).blocks, decode);
  }

  /** The adapter's loop: whatever chunks the text arrives in, what it yields is what the whole text says. */
  method ParseOpenAiCompatibleSse(chunks: seq<string>, decode: string -> Option<OpenAiPayload>)
    returns (s: OpenAi)
    ensures s == OpenAiBlocks(OpenAi([], Running), SplitBlocks(Concat(chunks)).blocks, decode)
  {
    ghost var start := OpenAi([], Running);
    s := OpenAi([], Running);
    var buffer := "";
    for i := 0 to |chunks|
      invariant s.status == Running && buffer == SplitBlocks(Concat(chunks[..i])).rest
      invariant s == OpenAiBlocks(start, SplitBlocks(Concat(chunks[..i])).blocks, decode)
    {
      ghost var before := Concat(chunks[..i]);
      ConcatTake(chunks, i);
      OpenAiMoreText(start, before, chunks[i], decode);
      SplitAppend(before, chunks[i]);
      s, buffer := DrainOpenAi(s, buffer + chunks[i], decode);
      if s.status != Running {
        ConcatCut(chunks, i + 1);
        OpenAiStays(start, s, before + chunks[i], Concat(chunks[i + 1..]), decode);
        return;
      }
    }
    assert chunks[..|chunks|] == chunks;
  }

  // ---------- What the OpenAI adapter yields ----------

  /** All lines of all blocks. */
  function AllLines(blocks: seq<string>): seq<string> {
    if blocks == [] then [] else Lines(blocks[0]) + AllLines(blocks[1..])
  }

  /** The payloads before the end marker or a malformed one; one that breaks is the last. */
  function Payloads(lines: seq<string>, decode: string -> Option<OpenAiPayload>): seq<OpenAiPayload> {
    if lines == [] then []
    else if !("data: " <= lines[0]) then Payloads(lines[1..], decode)
    else if lines[0][6..] == "[DONE]" then []
    else
      match decode(lines[0][6..])
      case None => []
      case Some(p) => [p] + if p.breaks then [] else Payloads(lines[1..], decode)
  }

  function StreamPayloads(text: string, decode: string -> Option<OpenAiPayload>): seq<OpenAiPayload> {
    Payloads(AllLines(SplitBlocks(text).blocks), decode)
  }

  function AllChunks(ps: seq<OpenAiPayload>): seq<Chunk> {
    if ps == [] then [] else PayloadChunks(ps[0]) + AllChunks(ps[1..])
  }

  lemma {:induction false} OpenAiLinesAppend(s: OpenAi, a: seq<string>, b: seq<string>,
                                             decode: string -> Option<OpenAiPayload>)
    ensures OpenAiLines(s, a + b, decode) == OpenAiLines(OpenAiLines(s, a, decode), b, decode)
    decreases |a|
  {
    if a == [] {
      assert a + b == b;
    } else {
      HeadAndTail(a, b);
      OpenAiLinesAppend(OpenAiLine(s, a[0], decode), a[1..], b, decode);
    }
  }

  /** Block boundaries do not matter either. */
  lemma {:induction false} BlocksAreLines(s: OpenAi, blocks: seq<string>, decode: string -> Option<OpenAiPayload>)
    ensures OpenAiBlocks(s, blocks, decode) == OpenAiLines(s, AllLines(blocks), decode)
    decreases |blocks|
  {
    if blocks != [] {
      OpenAiLinesAppend(s, Lines(blocks[0]), AllLines(blocks[1..]), decode);
      BlocksAreLines(OpenAiLines(s, Lines(blocks[0]), decode), blocks[1..], decode);
    }
  }

  /** The line that ends the stream. */
  lemma OnePayload(s: OpenAi, lines: seq<string>, decode: string -> Option<OpenAiPayload>)
    requires s.status == Running && lines != [] && OpenAiLine(s, lines[0], decode).status != Running
    ensures OpenAiLine(s, lines[0], decode).out == s.out + AllChunks(Payloads(lines, decode))
  {
    var ps := Payloads(lines, decode);
    if ps != [] {
      assert ps[1..] == [];
      assert AllChunks(ps) == PayloadChunks(ps[0]);
    }
  }

  lemma {:induction false} LinesYield(s: OpenAi, lines: seq<string>, decode: string -> Option<OpenAiPayload>)
    requires s.status == Running
    ensures OpenAiLines(s, lines, decode).out == s.out + AllChunks(Payloads(lines, decode))
    decreases |lines|
  {
    if lines != [] {
      var next := OpenAiLine(s, lines[0], decode);
      if next.status != Running {
        OpenAiLinesDone(next, lines[1..], decode);
        OnePayload(s, lines, decode);
      } else {
        LinesYield(next, lines[1..], decode);
        if "data: " <= lines[0] {
          var p := decode(lines[0][6..]).value;
          Associate(s.out, PayloadChunks(p), AllChunks(Payloads(lines[1..], decode)));
        }
      }
    }
  }

  /** What the adapter yields on a text, whatever its chunks. */
  function Yielded(text: string, decode: string -> Option<OpenAiPayload>): seq<Chunk> {
    OpenAiBlocks(OpenAi([], Running), SplitBlocks(text).blocks, decode).out
  }

  /** The adapter yields exactly the chunks of the stream's payloads before its end, in order. */
  lemma YieldsPayloads(text: string, decode: string -> Option<OpenAiPayload>)
    ensures Yielded(text, decode) == AllChunks(StreamPayloads(text, decode))
  {
    BlocksAreLines(OpenAi([], Running), SplitBlocks(text).blocks, decode);
    LinesYield(OpenAi([], Running), AllLines(SplitBlocks(text).blocks), decode);
  }

  function TextOf(out: seq<Chunk>): string {
    if out == [] then "" else (if out[0].Text? then out[0].text else "") + TextOf(out[1..])
  }

  lemma {:induction false} TextOfAppend(a: seq<Chunk>, b: seq<Chunk>)
    ensures TextOf(a + b) == TextOf(a) + TextOf(b)
  {
    if a == [] {
      assert a + b == b;
    } else {
      HeadAndTail(a, b);
      TextOfAppend(a[1..], b);
      Associate(if a[0].Text? then a[0].text else "", TextOf(a[1..]), TextOf(b));
    }
  }

  /** The payloads' deltas, one after the other. */
  function Deltas(ps: seq<OpenAiPayload>): string {
    if ps == [] then "" else (if ps[0].breaks || ps[0].delta.None? then "" else ps[0].delta.value) + Deltas(ps[1..])
  }

  ghost predicate NoEmptyText(out: seq<Chunk>) {
    forall c <- out :: c.Text? ==> c.text != ""
  }

  lemma TextOfPayload(p: OpenAiPayload)
    ensures TextOf(PayloadChunks(p)) == (if p.breaks || p.delta.None? then "" else p.delta.value)
    ensures NoEmptyText(PayloadChunks(p))
  {
    var usage := if p.usage.Some? then [Usage(p.usage.value.0, p.usage.value.1)] else [];
    var text := if Wordless(p) then [] else [Text(p.delta.value)];
    TextOfAppend(usage, text);
    assert usage != [] ==> usage[1..] == [];
    assert text != [] ==> text[1..] == [];
  }

  lemma {:induction false} TextsAreDeltas(ps: seq<OpenAiPayload>)
    ensures TextOf(AllChunks(ps)) == Deltas(ps) && NoEmptyText(AllChunks(ps))
  {
    if ps != [] {
      TextsAreDeltas(ps[1..]);
      TextOfPayload(ps[0]);
      TextOfAppend(PayloadChunks(ps[0]), AllChunks(ps[1..]));
    }
  }

  /** The text yielded is the payloads' deltas, one after the other, in pieces that are never empty. */
  lemma YieldsDeltas(text: string, decode: string -> Option<OpenAiPayload>)
    ensures TextOf(Yielded(text, decode)) == Deltas(StreamPayloads(text, decode))
    ensures NoEmptyText(Yielded(text, decode))
  {
    YieldsPayloads(text, decode);
    TextsAreDeltas(StreamPayloads(text, decode));
  }

  function Usages(out: seq<Chunk>): nat {
    if out == [] then 0 else (if out[0].Usage? then 1 else 0) + Usages(out[1..])
  }

  lemma {:induction false} UsagesAppend(a: seq<Chunk>, b: seq<Chunk>)
    ensures Usages(a + b) == Usages(a) + Usages(b)
  {
    if a == [] {
      assert a + b == b;
    } else {
      HeadAndTail(a, b);
      UsagesAppend(a[1..], b);
    }
  }

  lemma UsagesOfPayload(p: OpenAiPayload)
    ensures Usages(PayloadChunks(p)) == if p.usage.Some? then 1 else 0
  {
    var text := if Wordless(p) then [] else [Text(p.delta.value)];
    assert PayloadChunks(p)[if p.usage.Some? then 1 else 0..] == text;
    assert Usages(text) == 0 by {
      if text != [] {
        assert text[1..] == [];
      }
    }
  }

  /** How many payloads carry a usage object. */
  function Billed(ps: seq<OpenAiPayload>): nat {
    if ps == [] then 0 else (if ps[0].usage.Some? then 1 else 0) + Billed(ps[1..])
  }

  lemma {:induction false} UsagesAreBilled(ps: seq<OpenAiPayload>)
    ensures Usages(AllChunks(ps)) == Billed(ps)
  {
    if ps != [] {
      UsagesAppend(PayloadChunks(ps[0]), AllChunks(ps[1..]));
      UsagesOfPayload(ps[0]);
      UsagesAreBilled(ps[1..]);
    }
  }

  /** One usage per payload that carries one: so "exactly one ProviderUsage" holds if and only if exactly one payload
      before the stream's end carries usage. */
  lemma UsagePerPayload(text: string, decode: string -> Option<OpenAiPayload>)
    ensures Usages(Yielded(text, decode)) == Billed(StreamPayloads(text, decode))
  {
    YieldsPayloads(text, decode);
    UsagesAreBilled(StreamPayloads(text, decode));
  }

  /** Text, then exactly one usage as the last item. */
  predicate TextThenOneUsage(out: seq<Chunk>) {
    out != [] && out[|out| - 1].Usage? && Usages(out[..|out| - 1]) == 0
  }

  predicate Silent(p: OpenAiPayload) {
    p.usage.None? && Wordless(p)
  }

  /** The payload that carries usage comes once, carries no text, and only payloads that say nothing follow it. */
  predicate BilledOnceAtTheEnd(ps: seq<OpenAiPayload>) {
    ps != [] &&
    if ps[0].usage.Some? then
      Wordless(ps[0]) && forall p <- ps[1..] :: Silent(p)
    else BilledOnceAtTheEnd(ps[1..])
  }

  lemma {:induction false} SilentYieldsNothing(ps: seq<OpenAiPayload>)
    ensures AllChunks(ps) == [] <==> forall p <- ps :: Silent(p)
  {
    if ps != [] {
      SilentYieldsNothing(ps[1..]);
      assert ps == [ps[0]] + ps[1..];
      assert PayloadChunks(ps[0]) == [] <==> Silent(ps[0]);
      assert AllChunks(ps) == [] <==> PayloadChunks(ps[0]) == [] && AllChunks(ps[1..]) == [];
    }
  }

  lemma NoUsageBefore(text: seq<Chunk>, later: seq<Chunk>)
    requires Usages(text) == 0 && |text| <= 1
    ensures TextThenOneUsage(text + later) <==> TextThenOneUsage(later)
  {
    if later != [] {
      assert (text + later)[..|text + later| - 1] == text + later[..|later| - 1];
      UsagesAppend(text, later[..|later| - 1]);
    } else if text != [] {
      assert text + later == text;
    }
  }

  lemma UsageBefore(u: Chunk, later: seq<Chunk>)
    requires u.Usage?
    ensures TextThenOneUsage([u] + later) <==> later == []
  {
    if later != [] {
      HeadAndTail([u], later);
      assert ([u] + later)[..|later|] == [u] + later[..|later| - 1];
      HeadAndTail([u], later[..|later| - 1]);
    }
  }

  lemma {:induction false} ChunksThenOneUsage(ps: seq<OpenAiPayload>)
    ensures TextThenOneUsage(AllChunks(ps)) <==> BilledOnceAtTheEnd(ps)
  {
    if ps != [] {
      var p, later := ps[0], AllChunks(ps[1..]);
      ChunksThenOneUsage(ps[1..]);
      SilentYieldsNothing(ps[1..]);
      UsagesOfPayload(p);
      if p.usage.Some? {
        var u := Usage(p.usage.value.0, p.usage.value.1);
        var text := PayloadChunks(p)[1..];
        assert PayloadChunks(p) == [u] + text;
        Associate([u], text, later);
        UsageBefore(u, text + later);
      } else {
        NoUsageBefore(PayloadChunks(p), later);
      }
    }
  }

  /** The whole promise, "text deltas, then exactly one ProviderUsage as the final item", holds if and only if exactly
      one payload before the stream's end carries usage, that one carries no text, and none with text follows it. */
  lemma OneUsageLastIff(text: string, decode: string -> Option<OpenAiPayload>)
    ensures TextThenOneUsage(Yielded(text, decode)) <==> BilledOnceAtTheEnd(StreamPayloads(text, decode))
  {
    YieldsPayloads(text, decode);
    ChunksThenOneUsage(StreamPayloads(text, decode));
  }

  lemma OneLineBlocks(blocks: seq<string>)
    requires forall b <- blocks :: OneLine(b)
    ensures AllLines(SplitBlocks(Join(blocks, "")).blocks) == blocks
  {
    forall b <- blocks
      ensures Uncut(b)
    {
      forall i
        ensures !DelimiterAt(b + "\n", i)
      {
        assert 0 <= i < |b| ==> b[i] in b;
      }
    }
    SplitInvertsJoin(blocks, "");
    OneLineEach(blocks);
  }

  lemma {:induction false} OneLineEach(blocks: seq<string>)
    requires forall b <- blocks :: OneLine(b)
    ensures AllLines(blocks) == blocks
  {
    if blocks != [] {
      LinesOfLine(blocks[0]);
      OneLineEach(blocks[1..]);
      assert blocks == [blocks[0]] + blocks[1..];
    }
  }

  /** A stream of one data line per block, as providers send it. */
  function DataBlocks(xs: seq<string>): seq<string> {
    if xs == [] then [] else ["data: " + xs[0]] + DataBlocks(xs[1..])
  }

  function Decoded(xs: seq<string>, decode: string -> Option<OpenAiPayload>): seq<OpenAiPayload> {
    if xs == [] || xs[0] == "[DONE]" || decode(xs[0]).None? then []
    else [decode(xs[0]).value] + if decode(xs[0]).value.breaks then [] else Decoded(xs[1..], decode)
  }

  lemma {:induction false} DataLinesDecode(xs: seq<string>, decode: string -> Option<OpenAiPayload>)
    ensures Payloads(DataBlocks(xs), decode) == Decoded(xs, decode)
  {
    if xs != [] {
      var line := "data: " + xs[0];
      assert "data: " <= line && line[6..] == xs[0];
      assert DataBlocks(xs)[0] == line && DataBlocks(xs)[1..] == DataBlocks(xs[1..]);
      DataLinesDecode(xs[1..], decode);
    }
  }

  lemma {:induction false} DataBlocksAreOneLine(xs: seq<string>)
    requires forall x <- xs :: OneLine(x)
    ensures forall b <- DataBlocks(xs) :: OneLine(b)
  {
    if xs != [] {
      DataBlocksAreOneLine(xs[1..]);
      var line := "data: " + xs[0];
      assert xs[0] in xs;
      forall i | 0 <= i < |line|
        ensures line[i] != '\n'
      {
        assert i >= 6 ==> line[i] == xs[0][i - 6] && xs[0][i - 6] in xs[0];
      }
    }
  }

  /** On such a stream the payloads are the decoded lines up to the end marker or the first malformed one. */
  lemma StreamOfData(xs: seq<string>, decode: string -> Option<OpenAiPayload>)
    requires forall x <- xs :: OneLine(x)
    ensures StreamPayloads(Join(DataBlocks(xs), ""), decode) == Decoded(xs, decode)
  {
    DataBlocksAreOneLine(xs);
    OneLineBlocks(DataBlocks(xs));
    DataLinesDecode(xs, decode);
  }

  lemma DecodedOne(x: string, decode: string -> Option<OpenAiPayload>)
    requires x != "[DONE]" && decode(x).Some?
    ensures Decoded([x], decode) == [decode(x).value]
  {
    assert [x][1..] == [];
  }

  lemma DecodedTwo(x: string, y: string, decode: string -> Option<OpenAiPayload>)
    requires x != "[DONE]" && decode(x).Some? && !decode(x).value.breaks
    ensures Decoded([x, y], decode) == [decode(x).value] + Decoded([y], decode)
  {
    assert [x, y][1..] == [y];
  }

  lemma UsagesOfData(xs: seq<string>, decode: string -> Option<OpenAiPayload>)
    requires forall x <- xs :: OneLine(x)
    ensures Usages(Yielded(Join(DataBlocks(xs), ""), decode)) == Billed(Decoded(xs, decode))
  {
    StreamOfData(xs, decode);
    UsagePerPayload(Join(DataBlocks(xs), ""), decode);
  }

  lemma BilledOf(p: OpenAiPayload)
    ensures Billed([p]) == (if p.usage.Some? then 1 else 0) && Billed([p] + [p]) == 2 * Billed([p])
  {
    assert [p][1..] == [] && ([p] + [p])[1..] == [p];
  }

  /** The promise fails on a stream whose payload has no usage ... */
  lemma NoUsageSent(x: string, decode: string -> Option<OpenAiPayload>)
    requires OneLine(x) && x != "[DONE]" && decode(x).Some? && decode(x).value.usage.None?
    ensures Usages(Yielded(Join(DataBlocks([x]), ""), decode)) == 0
  {
    UsagesOfData([x], decode);
    DecodedOne(x, decode);
    BilledOf(decode(x).value);
  }

  /** ... on one that sends usage twice ... */
  lemma UsageSentTwice(x: string, decode: string -> Option<OpenAiPayload>)
    requires OneLine(x) && x != "[DONE]" && decode(x).Some?
    requires decode(x).value.usage.Some? && !decode(x).value.breaks
    ensures Usages(Yielded(Join(DataBlocks([x, x]), ""), decode)) == 2
  {
    UsagesOfData([x, x], decode);
    DecodedTwo(x, x, decode);
    DecodedOne(x, decode);
    BilledOf(decode(x).value);
  }

  /** ... and on one that sends it together with text, which then comes last. */
  lemma TextAfterUsage(x: string, decode: string -> Option<OpenAiPayload>)
    requires OneLine(x) && x != "[DONE]" && decode(x) == Some(OpenAiPayload(Some((3, 4)), Some("hi"), false))
    ensures Yielded(Join(DataBlocks([x]), ""), decode) == [Usage(3, 4), Text("hi")]
  {
    StreamOfData([x], decode);
    YieldsPayloads(Join(DataBlocks([x]), ""), decode);
    DecodedOne(x, decode);
    var p := decode(x).value;
    assert [p][1..] == [];
    assert AllChunks([p]) == PayloadChunks(p);
  }

  // ---------- Anthropic wire format ----------

  /** `outputTokens` tells an absent count from a null one. */
  datatype AnthropicPayload = AnthropicPayload(
    inputTokens: Option<int>,
    outputTokens: Option<Option<int>>,
    textDelta: Option<string>)

  /** What is read depends on the event's name too; None where json.loads or the reading raises. */
  type AnthropicDecoder = (Option<string>, string) -> Option<AnthropicPayload>

  /** What an event tells the parser. */
  datatype Notice =
    | Nothing
    | Malformed
    | MessageStart(inputTokens: Option<int>)
    | MessageDelta(outputTokens: Option<Option<int>>)
    | TextDelta(text: Option<string>)
    | MessageStop

  datatype Anthropic = Anthropic(out: seq<Chunk>, prompt: Option<int>, completion: Option<int>, status: Status)

  datatype NamedEvent = NamedEvent(eventType: Option<string>, dataLine: Option<string>)

  function NameLines(e: NamedEvent, lines: seq<string>): NamedEvent
    decreases |lines|
  {
    if lines == [] then e
    else if "event: " <= lines[0] then NameLines(e.(eventType := Some(lines[0][7..])), lines[1..])
    else if "data: " <= lines[0] then NameLines(e.(dataLine := Some(lines[0][6..])), lines[1..])
    else NameLines(e, lines[1..])
  }

  function NoticeOf(e: NamedEvent, decode: AnthropicDecoder): Notice {
    if e.dataLine.None? then Nothing
    else
      match decode(e.eventType, e.dataLine.value)
      case None => Malformed
      case Some(p) =>
        if e.eventType == Some("message_start") then MessageStart(p.inputTokens)
        else if e.eventType == Some("message_delta") then MessageDelta(p.outputTokens)
        else if e.eventType == Some("content_block_delta") then TextDelta(p.textDelta)
        else if e.eventType == Some("message_stop") then MessageStop
        else Nothing
  }

  function Tell(s: Anthropic, n: Notice): Anthropic {
    if s.status != Running then s
    else
      match n
      case Nothing => s
      case Malformed => s.(status := Failed)
      case MessageStart(tokens) => s.(prompt := tokens)
      case MessageDelta(tokens) => if tokens.Some? then s.(completion := tokens.value) else s
      case TextDelta(text) => if text.Some? && text.value != "" then s.(out := s.out + [Text(text.value)]) else s
      case MessageStop =>
        s.(status := Stopped,
           out := s.out + if s.prompt.Some? && s.completion.Some?
                          then [Usage(s.prompt.value, s.completion.value)] else [])
  }

  function AnthropicEvent(s: Anthropic, e: NamedEvent, decode: AnthropicDecoder): Anthropic {
    Tell(s, NoticeOf(e, decode))
  }

  function AnthropicBlocks(s: Anthropic, blocks: seq<string>, decode: AnthropicDecoder): Anthropic
    decreases |blocks|
  {
    if blocks == [] then s
    else AnthropicBlocks(AnthropicEvent(s, NameLines(NamedEvent(None, None), Lines(blocks[0])), decode), blocks[1..],
                         decode)
  }

  lemma {:induction false} AnthropicBlocksDone(s: Anthropic, blocks: seq<string>,
                                               decode: AnthropicDecoder)
    requires s.status != Running
    ensures AnthropicBlocks(s, blocks, decode) == s
    decreases |blocks|
  {
    if blocks != [] {
      AnthropicBlocksDone(s, blocks[1..], decode);
    }
  }

  method ReadNames(block: string) returns (e: NamedEvent)
    ensures e == NameLines(NamedEvent(None, None), Lines(block))
  {
    e := NamedEvent(None, None);
    var lines := Lines(block);
    for i := 0 to |lines|
      invariant NameLines(e, lines[i..]) == NameLines(NamedEvent(None, None), lines)
    {
      assert lines[i..][0] == lines[i] && lines[i..][1..] == lines[i + 1..];
      if "event: " <= lines[i] {
        e := e.(eventType := Some(lines[i][7..]));
      } else if "data: " <= lines[i] {
        e := e.(dataLine := Some(lines[i][6..]));
      }
    }
  }

  lemma {:induction false} AnthropicBlocksAppend(s: Anthropic, a: seq<string>, b: seq<string>,
                                                 decode: AnthropicDecoder)
    ensures AnthropicBlocks(s, a + b, decode) == AnthropicBlocks(AnthropicBlocks(s, a, decode), b, decode)
    decreases |a|
  {
    if a == [] {
      assert a + b == b;
    } else {
      assert (a + b)[1..] == a[1..] + b;
      AnthropicBlocksAppend(AnthropicEvent(s, NameLines(NamedEvent(None, None), Lines(a[0])), decode), a[1..], b,
                            decode);
    }
  }

  /** The inner loop: take complete blocks off the buffer until none is left or the stream is over. */
  method DrainAnthropic(start: Anthropic, text: string, decode: AnthropicDecoder)
    returns (s: Anthropic, buffer: string)
    requires start.status == Running
    ensures s == AnthropicBlocks(start, SplitBlocks(text).blocks, decode)
    ensures s.status == Running ==> buffer == SplitBlocks(text).rest
  {
    s, buffer := start, text;
    var idx := IndexOfDelimiter(buffer);
    while idx != -1
      invariant s.status == Running && idx == IndexOfDelimiter(buffer)
      invariant AnthropicBlocks(s, SplitBlocks(buffer).blocks, decode)
             == AnthropicBlocks(start, SplitBlocks(text).blocks, decode)
      invariant SplitBlocks(buffer).rest == SplitBlocks(text).rest
      decreases |buffer|
    {
      var block, rest := buffer[..idx], buffer[idx + 2..];
      assert SplitBlocks(buffer).blocks[0] == block && SplitBlocks(buffer).blocks[1..] == SplitBlocks(rest).blocks;
      var e := ReadNames(block);
      s := AnthropicEvent(s, e, decode);
      if s.status != Running {
        AnthropicBlocksDone(s, SplitBlocks(rest).blocks, decode);
        return;
      }
      buffer := rest;
      idx := IndexOfDelimiter(buffer);
    }
  }

  lemma AnthropicMoreText(start: Anthropic, text: string, more: string, decode: AnthropicDecoder)
    ensures AnthropicBlocks(start, SplitBlocks(text + more).blocks, decode)
         == AnthropicBlocks(AnthropicBlocks(start, SplitBlocks(text).blocks, decode),
                      SplitBlocks(SplitBlocks(text).rest + more).blocks, decode)
  {
    SplitAppend(text, more);
    AnthropicBlocksAppend(start, SplitBlocks(text).blocks, SplitBlocks(SplitBlocks(text).rest + more).blocks, decode);
  }

  lemma AnthropicStays(start: Anthropic, s: Anthropic, text: string, more: string,
                       decode: AnthropicDecoder)
    requires s == AnthropicBlocks(start, SplitBlocks(text).blocks, decode) && s.status != Running
    ensures AnthropicBlocks(start, SplitBlocks(text + more).blocks, decode) == s
  {
    AnthropicMoreText(start, text, more, decode);
    AnthropicBlocksDone(s, SplitBlocks(SplitBlocks(text).rest + more).blocks, decode);
  }

  /** The adapter's loop: chunk boundaries do not matter here either. */
  method ParseAnthropicSse(chunks: seq<string>, decode: AnthropicDecoder) returns (s: Anthropic)
    ensures s == AnthropicBlocks(Anthropic([], None, None, Running), SplitBlocks(Concat(chunks)).blocks, decode)
  {
    ghost var start := Anthropic([], None, None, Running);
    s := Anthropic([], None, None, Running);
    var buffer := "";
    for i := 0 to |chunks|
      invariant s.status == Running && buffer == SplitBlocks(Concat(chunks[..i])).rest
      invariant s == AnthropicBlocks(start, SplitBlocks(Concat(chunks[..i])).blocks, decode)
    {
      ghost var before := Concat(chunks[..i]);
      ConcatTake(chunks, i);
      AnthropicMoreText(start, before, chunks[i], decode);
      SplitAppend(before, chunks[i]);
      s, buffer := DrainAnthropic(s, buffer + chunks[i], decode);
      if s.status != Running {
        ConcatCut(chunks, i + 1);
        AnthropicStays(start, s, before + chunks[i], Concat(chunks[i + 1..]), decode);
        return;
      }
    }
    assert chunks[..|chunks|] == chunks;
  }

  // ---------- What the Anthropic adapter yields ----------

  function Notices(blocks: seq<string>, decode: AnthropicDecoder): seq<Notice> {
    if blocks == [] then []
    else [NoticeOf(NameLines(NamedEvent(None, None), Lines(blocks[0])), decode)] + Notices(blocks[1..], decode)
  }

  function TellAll(s: Anthropic, ns: seq<Notice>): Anthropic
    decreases |ns|
  {
    if ns == [] then s else TellAll(Tell(s, ns[0]), ns[1..])
  }

  /** Before the stop or a malformed event. */
  function Heard(ns: seq<Notice>): seq<Notice> {
    if ns == [] || ns[0].MessageStop? || ns[0].Malformed? then [] else [ns[0]] + Heard(ns[1..])
  }

  function Texts(ns: seq<Notice>): seq<Chunk> {
    if ns == [] then []
    else
      var last := ns[|ns| - 1];
      Texts(ns[..|ns| - 1])
      + if last.TextDelta? && last.text.Some? && last.text.value != "" then [Text(last.text.value)] else []
  }

  /** The input tokens of the last message_start. */
  function LastPrompt(ns: seq<Notice>): Option<int> {
    if ns == [] then None
    else if ns[|ns| - 1].MessageStart? then ns[|ns| - 1].inputTokens
    else LastPrompt(ns[..|ns| - 1])
  }

  /** The output tokens of the last message_delta that has the field. */
  function LastCompletion(ns: seq<Notice>): Option<int> {
    if ns == [] then None
    else if ns[|ns| - 1].MessageDelta? && ns[|ns| - 1].outputTokens.Some? then ns[|ns| - 1].outputTokens.value
    else LastCompletion(ns[..|ns| - 1])
  }

  predicate ReachesStop(ns: seq<Notice>) {
    |Heard(ns)| < |ns| && ns[|Heard(ns)|].MessageStop?
  }

  /** A stop is reached, with both counts reported before it. */
  predicate BilledAtStop(ns: seq<Notice>) {
    ReachesStop(ns) && LastPrompt(Heard(ns)).Some? && LastCompletion(Heard(ns)).Some?
  }

  lemma {:induction false} BlocksAreNotices(s: Anthropic, blocks: seq<string>, decode: AnthropicDecoder)
    ensures AnthropicBlocks(s, blocks, decode) == TellAll(s, Notices(blocks, decode))
    decreases |blocks|
  {
    if blocks != [] {
      BlocksAreNotices(AnthropicEvent(s, NameLines(NamedEvent(None, None), Lines(blocks[0])), decode), blocks[1..],
                       decode);
    }
  }

  lemma {:induction false} TellAllAppend(s: Anthropic, a: seq<Notice>, b: seq<Notice>)
    ensures TellAll(s, a + b) == TellAll(TellAll(s, a), b)
    decreases |a|
  {
    if a == [] {
      assert a + b == b;
    } else {
      HeadAndTail(a, b);
      TellAllAppend(Tell(s, a[0]), a[1..], b);
    }
  }

  lemma {:induction false} TellAllDone(s: Anthropic, ns: seq<Notice>)
    requires s.status != Running
    ensures TellAll(s, ns) == s
    decreases |ns|
  {
    if ns != [] {
      TellAllDone(s, ns[1..]);
    }
  }

  lemma {:induction false} HeardIsQuiet(ns: seq<Notice>)
    ensures Heard(ns) <= ns && forall n <- Heard(ns) :: !n.MessageStop? && !n.Malformed?
    ensures |Heard(ns)| < |ns| ==> ns[|Heard(ns)|].MessageStop? || ns[|Heard(ns)|].Malformed?
  {
    if ns != [] {
      HeardIsQuiet(ns[1..]);
      assert ns == [ns[0]] + ns[1..];
    }
  }

  /** Until then the parser holds the texts and the last counts. */
  lemma {:induction false} QuietNotices(ns: seq<Notice>)
    requires forall n <- ns :: !n.MessageStop? && !n.Malformed?
    ensures TellAll(Anthropic([], None, None, Running), ns)
         == Anthropic(Texts(ns), LastPrompt(ns), LastCompletion(ns), Running)
  {
    if ns != [] {
      var front, last := ns[..|ns| - 1], ns[|ns| - 1];
      assert forall n <- front :: n in ns;
      assert last in ns;
      QuietNotices(front);
      assert ns == front + [last] && [last][1..] == [];
      var start := Anthropic([], None, None, Running);
      TellAllAppend(start, front, [last]);
      assert TellAll(start, ns) == Tell(TellAll(start, front), last);
    }
  }

  lemma {:induction false} TextsAreNoUsage(ns: seq<Notice>)
    ensures Usages(Texts(ns)) == 0
  {
    if ns != [] {
      var front, last := Texts(ns[..|ns| - 1]), Texts(ns)[|Texts(ns[..|ns| - 1])|..];
      TextsAreNoUsage(ns[..|ns| - 1]);
      UsagesAppend(front, last);
      assert last != [] ==> last[1..] == [];
      assert Texts(ns) == front + last;
    }
  }

  function AnthropicYielded(text: string, decode: AnthropicDecoder): seq<Chunk> {
    AnthropicBlocks(Anthropic([], None, None, Running), SplitBlocks(text).blocks, decode).out
  }

  function StreamNotices(text: string, decode: AnthropicDecoder): seq<Notice> {
    Notices(SplitBlocks(text).blocks, decode)
  }

  function FinalUsage(ns: seq<Notice>): seq<Chunk> {
    if BilledAtStop(ns) then [Usage(LastPrompt(Heard(ns)).value, LastCompletion(Heard(ns)).value)] else []
  }

  lemma NoticesYield(ns: seq<Notice>)
    ensures TellAll(Anthropic([], None, None, Running), ns).out == Texts(Heard(ns)) + FinalUsage(ns)
  {
    var start, heard := Anthropic([], None, None, Running), Heard(ns);
    HeardIsQuiet(ns);
    QuietNotices(heard);
    var rest := ns[|heard|..];
    assert ns == heard + rest;
    TellAllAppend(start, heard, rest);
    if rest != [] {
      TellAllDone(Tell(TellAll(start, heard), rest[0]), rest[1..]);
    }
  }

  /** What the adapter yields, from the sequence of events alone: the texts before the stream's end, then the usage,
      with the counts reported last, if a stop was reached with both reported before it. So the promise "text, then
      exactly one ProviderUsage last" holds if and only if that is so; otherwise no usage comes at all. */
  lemma AnthropicUsageIff(text: string, decode: AnthropicDecoder)
    ensures var ns, out := StreamNotices(text, decode), AnthropicYielded(text, decode);
            && out == Texts(Heard(ns)) + FinalUsage(ns)
            && (TextThenOneUsage(out) <==> BilledAtStop(ns))
            && Usages(out) == if BilledAtStop(ns) then 1 else 0
  {
    var ns := StreamNotices(text, decode);
    var texts, last := Texts(Heard(ns)), FinalUsage(ns);
    BlocksAreNotices(Anthropic([], None, None, Running), SplitBlocks(text).blocks, decode);
    NoticesYield(ns);
    TextsAreNoUsage(Heard(ns));
    UsagesAppend(texts, last);
    if last != [] {
      assert last[1..] == [] && (texts + last)[..|texts + last| - 1] == texts;
    } else {
      assert texts + last == texts;
      NoUsageAtEnd(texts);
    }
  }

  lemma NoUsageAtEnd(out: seq<Chunk>)
    requires Usages(out) == 0
    ensures !TextThenOneUsage(out)
  {
    if out != [] {
      var front, last := out[..|out| - 1], [out[|out| - 1]];
      assert out == front + last && last[1..] == [];
      UsagesAppend(front, last);
    }
  }

  /** An event as the provider sends it. */
  function EventBlock(name: string, data: string): string {
    "event: " + name + "\n" + ("data: " + data)
  }

  function BlockNotice(block: string, decode: AnthropicDecoder): Notice {
    NoticeOf(NameLines(NamedEvent(None, None), Lines(block)), decode)
  }

  lemma Prefixed(prefix: string, s: string)
    requires OneLine(prefix) && OneLine(s)
    ensures OneLine(prefix + s) && prefix <= prefix + s && (prefix + s)[|prefix|..] == s
  {
    forall i | 0 <= i < |prefix + s|
      ensures (prefix + s)[i] != '\n'
    {
      assert if i < |prefix| then (prefix + s)[i] == prefix[i] else (prefix + s)[i] == s[i - |prefix|];
    }
  }

  lemma TwoNames(a: string, b: string, name: string, data: string)
    requires "event: " <= a && a[7..] == name && "data: " <= b && b[6..] == data
    ensures NameLines(NamedEvent(None, None), [a] + [b]) == NamedEvent(Some(name), Some(data))
  {
    var named := NamedEvent(Some(name), None);
    assert ([a] + [b])[1..] == [b] && [b][1..] == [];
    assert b[0] == 'd' && "event: "[0] == 'e';
    assert NameLines(NamedEvent(None, None), [a] + [b]) == NameLines(named, [b]);
    assert NameLines(named, [b]) == NameLines(NamedEvent(Some(name), Some(data)), []);
  }

  lemma EventBlockNames(name: string, data: string)
    requires OneLine(name) && OneLine(data)
    ensures NameLines(NamedEvent(None, None), Lines(EventBlock(name, data))) == NamedEvent(Some(name), Some(data))
    ensures Uncut(EventBlock(name, data))
  {
    var a: string, b: string := "event: " + name, "data: " + data;
    Prefixed("event: ", name);
    Prefixed("data: ", data);
    LinesCons(a, b);
    LinesOfLine(b);
    assert Lines(EventBlock(name, data)) == [a] + [b];
    TwoNames(a, b, name, data);
    TwoLinesUncut(a, b);
  }

  lemma TwoLinesUncut(a: string, b: string)
    requires OneLine(a) && OneLine(b) && b != ""
    ensures Uncut(a + "\n" + b)
  {
    var s := a + "\n" + b + "\n";
    forall i
      ensures !DelimiterAt(s, i)
    {
      assert 0 <= i < |a| ==> s[i] == a[i] && a[i] in a;
      assert |a| + 1 <= i < |a| + 1 + |b| ==> s[i] == b[i - |a| - 1] && b[i - |a| - 1] in b;
    }
  }

  /** Which events say what. */
  lemma EventMeaning(name: string, data: string, decode: AnthropicDecoder)
    requires OneLine(name) && OneLine(data)
    ensures var notice, p := BlockNotice(EventBlock(name, data), decode), decode(Some(name), data);
            && Uncut(EventBlock(name, data)) && (notice.Malformed? <==> p.None?)
            && (p.Some? && name == "message_start" ==> notice == MessageStart(p.value.inputTokens))
            && (p.Some? && name == "content_block_delta" ==> notice == TextDelta(p.value.textDelta))
            && (p.Some? && name == "message_delta" ==> notice == MessageDelta(p.value.outputTokens))
            && (p.Some? && name == "message_stop" ==> notice == MessageStop)
  {
    EventBlockNames(name, data);
  }

  /** A whole reply of the provider, from its text: the delta, then the usage with both counts. */
  lemma AnthropicReply(w: string, x: string, y: string, z: string, decode: AnthropicDecoder,
                       text: string, input: int, output: int)
    requires OneLine(w) && OneLine(x) && OneLine(y) && OneLine(z) && text != ""
    requires decode(Some("message_start"), w).Some? && decode(Some("message_start"), w).value.inputTokens == Some(input)
    requires decode(Some("content_block_delta"), x).Some?
    requires decode(Some("content_block_delta"), x).value.textDelta == Some(text)
    requires decode(Some("message_delta"), y).Some?
    requires decode(Some("message_delta"), y).value.outputTokens == Some(Some(output))
    requires decode(Some("message_stop"), z).Some?
    ensures AnthropicYielded(Join([EventBlock("message_start", w), EventBlock("content_block_delta", x),
                                   EventBlock("message_delta", y), EventBlock("message_stop", z)], ""), decode)
         == [Text(text), Usage(input, output)]
  {
    var a, b := EventBlock("message_start", w), EventBlock("content_block_delta", x);
    var c, d := EventBlock("message_delta", y), EventBlock("message_stop", z);
    assert BlockNotice(a, decode) == MessageStart(Some(input)) && Uncut(a) by {
      EventMeaning("message_start", w, decode);
    }
    assert BlockNotice(b, decode) == TextDelta(Some(text)) && Uncut(b) by {
      EventMeaning("content_block_delta", x, decode);
    }
    assert BlockNotice(c, decode) == MessageDelta(Some(Some(output))) && Uncut(c) by {
      EventMeaning("message_delta", y, decode);
    }
    assert BlockNotice(d, decode) == MessageStop && Uncut(d) by {
      EventMeaning("message_stop", z, decode);
    }
    FourBlocks(a, b, c, d, decode, text, input, output);
  }

  lemma OneBlock(s: Anthropic, block: string, rest: seq<string>, decode: AnthropicDecoder)
    ensures AnthropicBlocks(s, [block] + rest, decode)
         == AnthropicBlocks(Tell(s, BlockNotice(block, decode)), rest, decode)
  {
    assert ([block] + rest)[1..] == rest;
  }

  lemma FourBlocks(a: string, b: string, c: string, d: string, decode: AnthropicDecoder,
                   text: string, input: int, output: int)
    requires Uncut(a) && Uncut(b) && Uncut(c) && Uncut(d) && text != ""
    requires BlockNotice(a, decode) == MessageStart(Some(input)) && BlockNotice(b, decode) == TextDelta(Some(text))
    requires BlockNotice(c, decode) == MessageDelta(Some(Some(output))) && BlockNotice(d, decode) == MessageStop
    ensures AnthropicYielded(Join([a, b, c, d], ""), decode) == [Text(text), Usage(input, output)]
  {
    SplitFour(a, b, c, d);
    BilledReply(a, b, c, d, decode, text, input, output);
  }

  lemma SplitFour(a: string, b: string, c: string, d: string)
    requires Uncut(a) && Uncut(b) && Uncut(c) && Uncut(d)
    ensures SplitBlocks(Join([a, b, c, d], "")).blocks == [a] + ([b] + ([c] + ([d] + [])))
  {
    var blocks := [a, b, c, d];
    assert forall k :: 0 <= k < |blocks| ==> Uncut(blocks[k]);
    SplitInvertsJoin(blocks, "");
  }

  lemma BilledReply(a: string, b: string, c: string, d: string, decode: AnthropicDecoder,
                    text: string, input: int, output: int)
    requires BlockNotice(a, decode) == MessageStart(Some(input)) && BlockNotice(b, decode) == TextDelta(Some(text))
    requires BlockNotice(c, decode) == MessageDelta(Some(Some(output))) && BlockNotice(d, decode) == MessageStop
    requires text != ""
    ensures AnthropicBlocks(Anthropic([], None, None, Running), [a] + ([b] + ([c] + ([d] + []))), decode).out
         == [Text(text), Usage(input, output)]
  {
    var s0, s1 := Anthropic([], None, None, Running), Anthropic([], Some(input), None, Running);
    var s2 := Anthropic([] + [Text(text)], Some(input), None, Running);
    var s3 := Anthropic([] + [Text(text)], Some(input), Some(output), Running);
    OneBlock(s0, a, [b] + ([c] + ([d] + [])), decode);
    OneBlock(s1, b, [c] + ([d] + []), decode);
    OneBlock(s2, c, [d] + [], decode);
    OneBlock(s3, d, [], decode);
  }
}
