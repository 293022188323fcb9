/** The line buffering all three stream transformers share: cut chunks into lines, keep the unfinished one. */
module LineFeed {
  import opened Text

  /** A transformer's own state beside the text of the line it has not seen the end of. */
  datatype Feed<S> = Feed(core: S, lineBuffer: string)

  /** Finished lines go through the transformer one at a time. */
  function Lines<S>(step: (S, string) -> S, core: S, lines: seq<string>): S
    decreases |lines|
  {
    if lines == [] then core else Lines(step, step(core, lines[0]), lines[1..])
  }

  /** `transform(chunk)` */
  function Chunk<S>(step: (S, string) -> S, feed: Feed<S>, chunk: string): Feed<S> {
    var lines := Split(feed.lineBuffer + chunk);
    Feed(Lines(step, feed.core, Init(lines)), Last(lines))
  }

  function Chunks<S>(step: (S, string) -> S, feed: Feed<S>, chunks: seq<string>): Feed<S>
    decreases |chunks|
  {
    if chunks == [] then feed else Chunks(step, Chunk(step, feed, chunks[0]), chunks[1..])
  }

  lemma {:induction false} LinesAppend<S>(step: (S, string) -> S, core: S, a: seq<string>, b: seq<string>)
    ensures Lines(step, core, a + b) == Lines(step, Lines(step, core, a), b)
    decreases |a|
  {
    if a == [] {
      assert a + b == b;
    } else {
      assert (a + b)[1..] == a[1..] + b;
      LinesAppend(step, step(core, a[0]), a[1..], b);
    }
  }

  lemma LinesOne<S>(step: (S, string) -> S, core: S, a: string)
    ensures Lines(step, core, [a]) == step(core, a)
  {
    assert [a][1..] == [];
    assert Lines(step, step(core, a), []) == step(core, a);
  }

  lemma LinesTwo<S>(step: (S, string) -> S, core: S, a: string, b: string)
    ensures Lines(step, core, [a, b]) == step(step(core, a), b)
  {
    assert [a, b][1..] == [b];
    LinesOne(step, step(core, a), b);
  }

  lemma LinesThree<S>(step: (S, string) -> S, core: S, a: string, b: string, c: string)
    ensures Lines(step, core, [a, b, c]) == step(step(step(core, a), b), c)
  {
    assert [a, b, c][1..] == [b, c];
    LinesTwo(step, step(core, a), b, c);
  }

  /** A finished line and the start of the next. */
  lemma OneLineAndMore<S>(step: (S, string) -> S, core: S, line: string, more: string)
    requires NoNewline(line) && NoNewline(more)
    ensures Chunk(step, Feed(core, ""), line + "\n" + more) == Feed(step(core, line), more)
  {
    SplitLine(line, more);
    SplitOneLine(more);
    assert "" + (line + "\n" + more) == line + "\n" + more;
    assert Init([line] + [more]) == [line];
    LinesOne(step, core, line);
  }

  /** The newline that ends a line begun earlier. */
  lemma EndOfLine<S>(step: (S, string) -> S, core: S, line: string)
    requires NoNewline(line)
    ensures Chunk(step, Feed(core, line), "\n") == Feed(step(core, line), "")
  {
    SplitLine(line, "");
    assert line + "\n" + "" == line + "\n";
    assert Init([line] + [""]) == [line];
    LinesOne(step, core, line);
  }

  /** Two chunks in a row are one longer chunk. */
  lemma ChunkAppend<S>(step: (S, string) -> S, feed: Feed<S>, a: string, b: string)
    ensures Chunk(step, Chunk(step, feed, a), b) == Chunk(step, feed, a + b)
  {
    var text := feed.lineBuffer + a;
    var head, more := Init(Split(text)), Split(Last(Split(text)) + b);
    SplitAppend(text, b);
    assert feed.lineBuffer + (a + b) == text + b;
    assert Init(head + more) == head + Init(more);
    LinesAppend(step, feed.core, head, Init(more));
  }

  /** However a text is cut, the transformer ends in the state it reaches on the text as one chunk. */
  lemma {:induction false} CuttingIsIrrelevant<S>(step: (S, string) -> S, feed: Feed<S>, chunks: seq<string>)
    requires Split(feed.lineBuffer) == [feed.lineBuffer]
    ensures Chunks(step, feed, chunks) == Chunk(step, feed, Flatten(chunks))
    decreases |chunks|
  {
    if chunks == [] {
      assert feed.lineBuffer + "" == feed.lineBuffer;
    } else {
      SplitLastOneLine(feed.lineBuffer + chunks[0]);
      CuttingIsIrrelevant(step, Chunk(step, feed, chunks[0]), chunks[1..]);
      ChunkAppend(step, feed, chunks[0], Flatten(chunks[1..]));
    }
  }
}
