/** Cutting a growing text buffer into blocks at blank lines, the loop the browser and both provider adapters use. */
module SseSplitter {
  import opened Collections


  /** Result of splitting: the complete blocks and the unfinished tail. */
  datatype Split = Split(blocks: seq<string>, rest: string)

  predicate DelimiterAt(s: string, i: int) {
    0 <= i && i + 2 <= |s| && s[i] == '\n' && s[i + 1] == '\n'
  }

  /** indexOf("\n\n"): the first position of the delimiter, or -1. */
  function IndexOfDelimiter(s: string): (i: int)
    ensures i == -1 || DelimiterAt(s, i)
    ensures forall j :: DelimiterAt(s, j) ==> 0 <= i <= j
    decreases |s|
  {
    if |s| < 2 then -1
    else if DelimiterAt(s, 0) then 0
    else
      var i := IndexOfDelimiter(s[1..]);
      assert forall j :: DelimiterAt(s, j) ==> j > 0 && DelimiterAt(s[1..], j - 1);
      if i == -1 then -1 else i + 1
  }

  function SplitBlocks(s: string): Split
    decreases |s|
  {
    var i := IndexOfDelimiter(s);
    if i == -1 then Split([], s)
    else
      var tail := SplitBlocks(s[i + 2..]);
      Split([s[..i]] + tail.blocks, tail.rest)
  }

  function Join(blocks: seq<string>, rest: string): string {
    if blocks == [] then rest else blocks[0] + "\n\n" + Join(blocks[1..], rest)
  }

  function Concat(chunks: seq<string>): string {
    if chunks == [] then "" else chunks[0] + Concat(chunks[1..])
  }

  /** A text that the delimiter cannot cut, even with one newline of a delimiter behind it. */
  ghost predicate Uncut(block: string) {
    forall i :: !DelimiterAt(block + "\n", i)
  }

  lemma IndexIs(s: string, i: nat)
    requires DelimiterAt(s, i) && forall j :: 0 <= j < i ==> !DelimiterAt(s, j)
    ensures IndexOfDelimiter(s) == i
  {
  }

  /** Splitting is cutting: what was cut out joins back to the text, and nothing is left to cut. */
  lemma {:induction false} SplitIsAPartition(s: string)
    ensures var p := SplitBlocks(s);
            && Join(p.blocks, p.rest) == s
            && (forall b <- p.blocks :: Uncut(b))
            && IndexOfDelimiter(p.rest) == -1
    decreases |s|
  {
    var i := IndexOfDelimiter(s);
    if i != -1 {
      SplitIsAPartition(s[i + 2..]);
      var p := SplitBlocks(s);
      assert s == s[..i] + "\n\n" + s[i + 2..];
      assert p.blocks[1..] == SplitBlocks(s[i + 2..]).blocks;
      assert Uncut(s[..i]) by {
        assert forall j :: DelimiterAt(s[..i] + "\n", j) ==> DelimiterAt(s, j);
      }
    }
  }

  /** ... and it is the only way to cut the text into such blocks. */
  lemma {:induction false} SplitInvertsJoin(blocks: seq<string>, rest: string)
    requires forall b <- blocks :: Uncut(b)
    requires IndexOfDelimiter(rest) == -1
    ensures SplitBlocks(Join(blocks, rest)) == Split(blocks, rest)
  {
    if blocks != [] {
      var b, s := blocks[0], Join(blocks, rest);
      SplitInvertsJoin(blocks[1..], rest);
      FirstBlock(b, Join(blocks[1..], rest));
      assert s[|b| + 2..] == Join(blocks[1..], rest);
      assert s[..|b|] == b;
      assert blocks == [b] + blocks[1..];
    }
  }

  lemma FirstBlock(b: string, tail: string)
    requires Uncut(b)
    ensures IndexOfDelimiter(b + "\n\n" + tail) == |b|
  {
    var s := b + "\n\n" + tail;
    assert forall j :: 0 <= j < |b| && DelimiterAt(s, j) ==> DelimiterAt(b + "\n", j);
    IndexIs(s, |b|);
  }

  lemma IndexAppend(a: string, b: string)
    requires IndexOfDelimiter(a) != -1
    ensures IndexOfDelimiter(a + b) == IndexOfDelimiter(a)
  {
    var i := IndexOfDelimiter(a);
    assert DelimiterAt(a + b, i);
    forall j | 0 <= j < i
      ensures !DelimiterAt(a + b, j)
    {
      assert DelimiterAt(a + b, j) ==> DelimiterAt(a, j);
    }
    IndexIs(a + b, i);
  }

  /** Splitting what has arrived, then going on with the leftover, splits the whole. */
  lemma {:induction false} SplitAppend(a: string, b: string)
    ensures SplitBlocks(a + b).blocks == SplitBlocks(a).blocks + SplitBlocks(SplitBlocks(a).rest + b).blocks
    ensures SplitBlocks(a + b).rest == SplitBlocks(SplitBlocks(a).rest + b).rest
    decreases |a|
  {
    var i := IndexOfDelimiter(a);
    if i != -1 {
      IndexAppend(a, b);
      assert (a + b)[i + 2..] == a[i + 2..] + b && (a + b)[..i] == a[..i];
      var tail := a[i + 2..];
      SplitAppend(tail, b);
      var later := SplitBlocks(SplitBlocks(tail).rest + b).blocks;
      Associate([a[..i]], SplitBlocks(tail).blocks, later);
    }
  }

  /** What is cut from a prefix stays cut as more text arrives. */
  lemma PrefixSplit(prefix: string, s: string)
    requires prefix <= s
    ensures SplitBlocks(prefix).blocks <= SplitBlocks(s).blocks
  {
    assert s == prefix + s[|prefix|..];
    SplitAppend(prefix, s[|prefix|..]);
  }

  lemma {:induction false} ConcatAppend(a: seq<string>, b: seq<string>)
    ensures Concat(a + b) == Concat(a) + Concat(b)
  {
    if a == [] {
      assert a + b == b;
    } else {
      assert (a + b)[1..] == a[1..] + b;
      ConcatAppend(a[1..], b);
    }
  }

  lemma ConcatTake(chunks: seq<string>, i: nat)
    requires i < |chunks|
    ensures Concat(chunks[..i + 1]) == Concat(chunks[..i]) + chunks[i]
  {
    TakeOneMore(chunks, i);
    ConcatAppend(chunks[..i], [chunks[i]]);
    assert Concat([chunks[i]]) == chunks[i];
  }

  lemma ConcatCut(chunks: seq<string>, i: nat)
    requires i <= |chunks|
    ensures Concat(chunks) == Concat(chunks[..i]) + Concat(chunks[i..])
  {
    assert chunks == chunks[..i] + chunks[i..];
    ConcatAppend(chunks[..i], chunks[i..]);
  }

  lemma SplitStep(s: string, i: nat)
    requires IndexOfDelimiter(s) == i
    ensures i + 2 <= |s|
    ensures SplitBlocks(s).blocks == [s[..i]] + SplitBlocks(s[i + 2..]).blocks
    ensures SplitBlocks(s).rest == SplitBlocks(s[i + 2..]).rest
  {
  }

  method SplitSseBlocks(buffer: string) returns (blocks: seq<string>, rest: string)
    ensures Split(blocks, rest) == SplitBlocks(buffer)
  {
    blocks := [];
    rest := buffer;
    ghost var whole := SplitBlocks(buffer);
    var idx := IndexOfDelimiter(rest);
    while idx != -1
      invariant idx == IndexOfDelimiter(rest)
      invariant blocks + SplitBlocks(rest).blocks == whole.blocks && SplitBlocks(rest).rest == whole.rest
      decreases |rest|
    {
      SplitStep(rest, idx);
      Associate(blocks, [rest[..idx]], SplitBlocks(rest[idx + 2..]).blocks);
      blocks := blocks + [rest[..idx]];
      rest := rest[idx + 2..];
      idx := IndexOfDelimiter(rest);
    }
  }

  /** Chunk invariance of the reading loop: however the network cuts the text, the same blocks come out. */
  method SplitChunks(chunks: seq<string>) returns (blocks: seq<string>, buffer: string)
    ensures Split(blocks, buffer) == SplitBlocks(Concat(chunks))
  {
    blocks, buffer := [], "";
    for i := 0 to |chunks|
      invariant Split(blocks, buffer) == SplitBlocks(Concat(chunks[..i]))
    {
      ConcatTake(chunks, i);
      SplitAppend(Concat(chunks[..i]), chunks[i]);
      var more, rest := SplitSseBlocks(buffer + chunks[i]);
      blocks := blocks + more;
      buffer := rest;
    }
    assert chunks[..|chunks|] == chunks;
  }
}
