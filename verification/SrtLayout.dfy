/** Blocks and lines of printed text are found again, so every style round-trips. */
module SrtLayout {
  import opened Options
  import opened Decimal
  import opened SrtParser
  import opened SrtPrinter
  import opened SrtStyles

  // ----- lines -----

  lemma {:induction false} LineEndOf(line: string, rest: string)
    requires Unbroken(line) && (rest == "" || IsBreak(rest[0]))
    ensures LineEnd(line + rest) == |line|
  {
    if line == "" {
      assert line + rest == rest;
    } else {
      assert line[0] in line && forall c | c in line[1..] :: c in line;
      assert (line + rest)[1..] == line[1..] + rest;
      LineEndOf(line[1..], rest);
    }
  }

  lemma SplitFirstLine(s: string, line: string, cr: string, rest: string)
    requires Unbroken(line) && (cr == "" || cr == "\r") && s == (line + cr) + ("\n" + rest)
    ensures SplitLines(s) == [line] + SplitLines(rest)
  {
    var tail := cr + ("\n" + rest);
    assert s == line + tail;
    TailBreaks(tail, cr, rest);
    SplitAt(s, line, tail);
  }

  lemma TailBreaks(tail: string, cr: string, rest: string)
    requires (cr == "" || cr == "\r") && tail == cr + ("\n" + rest)
    ensures tail != "" && IsBreak(tail[0]) && tail[BreakLength(tail)..] == rest
  {
    assert tail[|cr| + 1..] == rest;
  }

  lemma SplitAt(s: string, line: string, tail: string)
    requires s == line + tail && Unbroken(line) && tail != "" && IsBreak(tail[0])
    ensures SplitLines(s) == [line] + SplitLines(tail[BreakLength(tail)..])
  {
    LineEndOf(line, tail);
    assert s[|line|..] == tail && s[..|line|] == line;
    assert s[|line| + BreakLength(tail)..] == tail[BreakLength(tail)..];
  }

  lemma SplitLastLine(line: string, end: string)
    requires Unbroken(line) && line != "" && (end == "" || end == "\r")
    ensures SplitLines(line + end) == [line]
  {
    LineEndOf(line, end);
    assert (line + end)[..|line|] == line && (line + end)[|line|..] == end;
    if end == "" {
      assert line + end == line;
    } else {
      assert BreakLength(end) == 1 && (line + end)[|line| + 1..] == "";
      assert SplitLines("") == [];
    }
  }

  lemma {:induction false} DigitsHaveNoArrow(s: string)
    requires AllDigits(s)
    ensures !HasArrow(s)
  {
    if s != "" {
      assert s[0] != "-->"[0];
      DigitsHaveNoArrow(s[1..]);
    }
  }

  lemma {:induction false} HasArrowAfter(a: string, b: string)
    requires "-->" <= b
    ensures HasArrow(a + b)
  {
    if a == "" {
      assert a + b == b;
    } else {
      assert (a + b)[1..] == a[1..] + b;
      HasArrowAfter(a[1..], b);
    }
  }

  lemma StripGood(s: string)
    requires GoodText(s)
    ensures Strip(s) == s
  {
    assert StripLeft(s) == s;
  }

  /** The parser joins clean lines by single spaces, in order. */
  lemma {:induction false} LinesJoin(lines: seq<string>)
    requires GoodLines(lines)
    ensures JoinLines(lines) == Spaced(lines) && Spaced(lines) != ""
    decreases |lines|
  {
    var init, last := lines[..|lines| - 1], lines[|lines| - 1];
    assert last in lines;
    StripGood(last);
    if init == [] {
      assert JoinLines([]) == "";
      assert lines == [last];
    } else {
      assert forall line | line in init :: line in lines;
      LinesJoin(init);
      SpacedSnoc(init, last);
      assert init + [last] == lines;
    }
  }

  lemma {:induction false} SpacedSnoc(init: seq<string>, last: string)
    requires init != []
    ensures Spaced(init + [last]) == Spaced(init) + " " + last
    decreases |init|
  {
    var all := init + [last];
    assert all[1..] == init[1..] + [last];
    if |init| == 1 {
      assert all[1..] == [last];
    } else {
      SpacedSnoc(init[1..], last);
    }
  }

  lemma EndLast(line: string, rest: string, end: string)
    ensures (line + ("\n" + rest)) + end == line + ("\n" + (rest + end))
  {
  }

  lemma NextLine(cr: string, line: string, rest: string, end: string, lines: seq<string>)
    requires GoodText(line) && (cr == "" || cr == "\r") && SplitLines(rest + end) == lines
    ensures SplitLines((line + cr) + ("\n" + rest) + end) == [line] + lines
  {
    EndLast(line + cr, rest, end);
    SplitFirstLine((line + cr) + ("\n" + (rest + end)), line, cr, rest + end);
  }

  /** Printed lines are found again. */
  lemma {:induction false} TextSplits(cr: string, lines: seq<string>, end: string)
    requires GoodLines(lines) && (cr == "" || cr == "\r") && (end == "" || end == "\r")
    ensures SplitLines(TextOf(cr, lines) + end) == lines
    decreases |lines|
  {
    assert lines[0] in lines;
    if |lines| == 1 {
      SplitLastLine(lines[0], end);
    } else {
      assert forall line | line in lines[1..] :: line in lines;
      var rest := TextOf(cr, lines[1..]);
      TextSplits(cr, lines[1..], end);
      NextLine(cr, lines[0], rest, end, lines[1..]);
      assert lines == [lines[0]] + lines[1..];
    }
  }

  lemma ArrowHasArrow(from: string, to: string)
    ensures HasArrow(Arrow(from, to))
  {
    var mark, gap := "-->", " ";
    assert " --> " == gap + (mark + gap);
    assert Arrow(from, to) == (from + gap) + (mark + (gap + to));
    HasArrowAfter(from + gap, mark + (gap + to));
  }

  lemma TimedLines(arrow: string, cr: string, lines: seq<string>, end: string)
    requires Unbroken(arrow) && GoodLines(lines) && (cr == "" || cr == "\r") && (end == "" || end == "\r")
    ensures SplitLines((arrow + cr) + ("\n" + (TextOf(cr, lines) + end))) == [arrow] + lines
  {
    TextSplits(cr, lines, end);
    SplitFirstLine((arrow + cr) + ("\n" + (TextOf(cr, lines) + end)), arrow, cr, TextOf(cr, lines) + end);
  }

  lemma BlockThenEnd(numbered: bool, cr: string, number: string, arrow: string, text: string, end: string)
    ensures Block(numbered, cr, number, arrow, text) + end ==
            var timed := (arrow + cr) + ("\n" + (text + end));
            if numbered then (number + cr) + ("\n" + timed) else timed
  {
  }

  lemma LinesOfBlock(numbered: bool, cr: string, number: string, arrow: string, lines: seq<string>, end: string)
    requires Unbroken(number) && Unbroken(arrow) && GoodLines(lines)
    requires (cr == "" || cr == "\r") && (end == "" || end == "\r")
    ensures SplitLines(Block(numbered, cr, number, arrow, TextOf(cr, lines)) + end) ==
            if numbered then [number] + ([arrow] + lines) else [arrow] + lines
  {
    var text := TextOf(cr, lines);
    BlockThenEnd(numbered, cr, number, arrow, text, end);
    TimedLines(arrow, cr, lines, end);
    if numbered {
      SplitFirstLine(Block(numbered, cr, number, arrow, text) + end, number, cr, (arrow + cr) + ("\n" + (text + end)));
    }
  }

  /** A printed block parses to its cue. */
  lemma BlockRoundTrip(numbered: bool, cr: string, number: string, arrow: string, lines: seq<string>, end: string)
    requires Unbroken(arrow) && HasArrow(arrow)
    requires AllDigits(number) && GoodLines(lines)
    requires (cr == "" || cr == "\r") && (end == "" || end == "\r")
    ensures BlockCue(Block(numbered, cr, number, arrow, TextOf(cr, lines)) + end) == [Cue(ParseTimestamp(arrow), Spaced(lines))]
  {
    DigitsUnbroken(number);
    DigitsHaveNoArrow(number);
    LinesOfBlock(numbered, cr, number, arrow, lines, end);
    LinesToCue(Block(numbered, cr, number, arrow, TextOf(cr, lines)) + end, numbered, number, arrow, lines);
  }

  lemma LinesToCue(block: string, numbered: bool, number: string, arrow: string, lines: seq<string>)
    requires SplitLines(block) == if numbered then [number] + ([arrow] + lines) else [arrow] + lines
    requires !HasArrow(number) && HasArrow(arrow) && GoodLines(lines)
    ensures BlockCue(block) == [Cue(ParseTimestamp(arrow), Spaced(lines))]
  {
    var found := SplitLines(block);
    LinesJoin(lines);
    assert ArrowLine([arrow] + lines) == 0;
    if numbered {
      assert found[1..] == [arrow] + lines && found[2..] == lines;
    } else {
      assert found[1..] == lines;
    }
  }

  // ----- blocks -----

  /** Every newline is followed by a character that is not white space. */
  predicate Tight(s: string) {
    forall i | 0 <= i < |s| && s[i] == '\n' :: i + 1 < |s| && !IsSpace(s[i + 1])
  }

  lemma TightUnbroken(s: string, end: string)
    requires Unbroken(s) && (end == "" || end == "\r")
    ensures Tight(s + end)
  {
    forall i | 0 <= i < |s| ensures s[i] != '\n' {
      assert s[i] in s;
    }
  }

  lemma TightLines(a: string, b: string)
    requires Tight(a) && Tight(b) && b != "" && !IsSpace(b[0])
    ensures Tight(a + ("\n" + b))
  {
    var s := a + ("\n" + b);
    forall i | 0 <= i < |s| && s[i] == '\n' ensures i + 1 < |s| && !IsSpace(s[i + 1]) {
      if i < |a| {
        assert a[i] == '\n';
      } else if i > |a| {
        assert b[i - |a| - 1] == '\n';
      }
    }
  }

  /** What a block needs for the parser to find its ends. */
  predicate GoodBlock(b: string) {
    Tight(b) && b != "" && IsDigit(b[0]) && !IsSpace(b[|b| - 1])
  }

  lemma {:induction false} TextIsTight(cr: string, lines: seq<string>)
    requires GoodLines(lines) && (cr == "" || cr == "\r")
    ensures var text := TextOf(cr, lines); Tight(text) && text != "" && !IsSpace(text[0]) && !IsSpace(text[|text| - 1])
    decreases |lines|
  {
    assert lines[0] in lines;
    if |lines| == 1 {
      TightUnbroken(lines[0], "");
      assert lines[0] + "" == lines[0];
    } else {
      assert forall line | line in lines[1..] :: line in lines;
      TextIsTight(cr, lines[1..]);
      TightUnbroken(lines[0], cr);
      TightLines(lines[0] + cr, TextOf(cr, lines[1..]));
    }
  }

  lemma BlockIsGood(numbered: bool, cr: string, number: string, arrow: string, text: string)
    requires Heading(number) && Heading(arrow) && (cr == "" || cr == "\r")
    requires Tight(text) && text != "" && !IsSpace(text[0]) && !IsSpace(text[|text| - 1])
    ensures GoodBlock(Block(numbered, cr, number, arrow, text))
  {
    TightUnbroken(arrow, cr);
    TightLines(arrow + cr, text);
    if numbered {
      TightUnbroken(number, cr);
      TightLines(number + cr, (arrow + cr) + ("\n" + text));
    }
  }

  lemma GoodBlockThen(b: string, cr: string)
    requires GoodBlock(b) && (cr == "" || cr == "\r")
    ensures Tight(b + cr)
  {
    var s := b + cr;
    forall i | 0 <= i < |s| && s[i] == '\n' ensures i + 1 < |s| && !IsSpace(s[i + 1]) {
      assert b[i] == '\n';
    }
  }

  lemma NoSeparatorIn(s: string, rest: string)
    requires s != "" && Tight(s)
    ensures SeparatorLength(s + rest) == 0
  {
    if s[0] == '\n' {
      assert (s + rest)[1..] != "" && !IsSpace((s + rest)[1..][0]);
      assert (s + rest)[1..][..0] == "";
    }
  }

  lemma {:induction false} BlockEndOf(s: string, rest: string)
    requires Tight(s) && (rest == "" || SeparatorLength(rest) > 0)
    ensures BlockEnd(s + rest) == |s|
  {
    if s == "" {
      assert s + rest == rest;
    } else {
      NoSeparatorIn(s, rest);
      assert forall i | 0 <= i < |s[1..]| :: s[1..][i] == s[i + 1];
      assert (s + rest)[1..] == s[1..] + rest;
      BlockEndOf(s[1..], rest);
    }
  }

  lemma SeparatorIs(cr: string, rest: string)
    requires (cr == "" || cr == "\r") && rest != "" && !IsSpace(rest[0])
    ensures SeparatorLength("\n" + (cr + ("\n" + rest))) == |cr| + 2
  {
    var s := cr + ("\n" + rest);
    assert ("\n" + s)[1..] == s;
    if cr == "" {
      assert s == "\n" + rest;
      RunIsNewline(rest);
    } else {
      assert s[1..] == "\n" + rest;
      RunIsNewline(rest);
    }
    assert s[..|cr| + 1] == cr + "\n";
    assert UpToNewline(cr + "\n") == |cr| + 1;
  }

  lemma RunIsNewline(rest: string)
    requires rest != "" && !IsSpace(rest[0])
    ensures SpaceRun("\n" + rest) == 1
  {
    assert ("\n" + rest)[1..] == rest;
  }

  lemma SplitFirstBlock(s: string, block: string, cr: string, rest: string)
    requires Tight(block) && (cr == "" || cr == "\r") && rest != "" && !IsSpace(rest[0])
    requires s == block + ("\n" + (cr + ("\n" + rest)))
    ensures SplitBlocks(s) == [block] + SplitBlocks(rest)
  {
    var tail := "\n" + (cr + ("\n" + rest));
    SeparatorIs(cr, rest);
    assert tail[|cr| + 2..] == rest;
    SplitAtSeparator(block, tail, |cr| + 2);
  }

  lemma SplitStep(start: string -> nat, length: string -> nat, block: string, tail: string, width: nat)
    requires start(block + tail) == |block| && length(tail) == width && 0 < width <= |tail|
    ensures Split(start, length, block + tail) == [block] + Split(start, length, tail[width..])
  {
    var s := block + tail;
    assert s[..|block|] == block && s[|block|..] == tail;
    assert s[|block| + width..] == tail[width..];
  }

  lemma SplitAtSeparator(block: string, tail: string, width: nat)
    requires Tight(block) && SeparatorLength(tail) == width > 0
    ensures SplitBlocks(block + tail) == [block] + SplitBlocks(tail[width..])
  {
    BlockEndOf(block, tail);
    SplitStep(BlockEnd, SeparatorLength, block, tail, width);
  }

  lemma SplitLastBlock(block: string)
    requires Tight(block)
    ensures SplitBlocks(block) == [block]
  {
    assert block + "" == block;
    BlockEndOf(block, "");
  }

  lemma Associates<T>(a: seq<T>, b: seq<T>, c: seq<T>)
    ensures a + b + c == a + (b + c)
  {
  }

  lemma {:induction false} GatherConcat(f: string -> seq<Cue>, a: seq<string>, b: seq<string>)
    ensures Gather(f, a + b) == Gather(f, a) + Gather(f, b)
    decreases |b|
  {
    if b == [] {
      assert a + b == a;
    } else {
      var init, last := b[..|b| - 1], b[|b| - 1];
      GatherConcat(f, a, init);
      assert (a + b)[..|a + b| - 1] == a + init;
      assert Gather(f, a + b) == Gather(f, a + init) + f(last);
      Associates(Gather(f, a), Gather(f, init), f(last));
    }
  }

  lemma GatherOne(f: string -> seq<Cue>, block: string)
    ensures Gather(f, [block]) == f(block)
  {
    assert [block][..0] == [];
    assert Gather(f, []) == [];
  }

  predicate GoodBlocks(blocks: seq<string>) {
    forall b | b in blocks :: GoodBlock(b)
  }

  lemma {:induction false} BodyIsOuter(cr: string, blocks: seq<string>)
    requires blocks != [] && GoodBlocks(blocks)
    ensures Body(cr, blocks) != "" && IsDigit(Body(cr, blocks)[0])
    ensures !IsSpace(Body(cr, blocks)[|Body(cr, blocks)| - 1])
  {
    assert blocks[0] in blocks;
    if |blocks| > 1 {
      assert forall b | b in blocks[1..] :: b in blocks;
      BodyIsOuter(cr, blocks[1..]);
    }
  }

  /** The blocks the parser finds: all but the last still end in their carriage return. */
  function Found(cr: string, blocks: seq<string>): seq<string> {
    if blocks == [] then []
    else if |blocks| == 1 then blocks
    else [blocks[0] + cr] + Found(cr, blocks[1..])
  }

  lemma {:induction false} BodySplits(cr: string, blocks: seq<string>)
    requires blocks != [] && GoodBlocks(blocks) && (cr == "" || cr == "\r")
    ensures SplitBlocks(Body(cr, blocks)) == Found(cr, blocks)
  {
    assert blocks[0] in blocks;
    if |blocks| == 1 {
      SplitLastBlock(blocks[0]);
    } else {
      assert forall b | b in blocks[1..] :: b in blocks;
      GoodBlockThen(blocks[0], cr);
      BodyIsOuter(cr, blocks[1..]);
      DigitIsNotSpace(Body(cr, blocks[1..])[0]);
      SplitFirstBlock(Body(cr, blocks), blocks[0] + cr, cr, Body(cr, blocks[1..]));
      BodySplits(cr, blocks[1..]);
    }
  }

  lemma DigitIsNotSpace(c: char)
    requires IsDigit(c)
    ensures !IsSpace(c) && c != BOM
  {
  }

  lemma ItemBlockIsGood(st: Style, n: nat, it: Item)
    requires GoodItem(it)
    ensures GoodBlock(ItemBlock(st, n, it))
  {
    DigitsUnbroken(Show(n));
    ArrowIsHeading(it.from, it.to);
    TextIsTight(Cr(st), it.lines);
    BlockIsGood(st.numbered, Cr(st), Show(n), Arrow(it.from, it.to), TextOf(Cr(st), it.lines));
  }

  lemma ItemRoundTrip(st: Style, n: nat, it: Item, end: string)
    requires GoodItem(it) && (end == "" || end == "\r")
    ensures BlockCue(ItemBlock(st, n, it) + end) == [CueOf(it)]
  {
    ArrowIsHeading(it.from, it.to);
    ArrowHasArrow(it.from, it.to);
    BlockRoundTrip(st.numbered, Cr(st), Show(n), Arrow(it.from, it.to), it.lines, end);
  }

  lemma {:induction false} ItemBlocksAreGood(st: Style, n: nat, items: seq<Item>)
    requires GoodItems(items)
    ensures GoodBlocks(ItemBlocks(st, n, items))
    decreases items
  {
    if items != [] {
      assert items[0] in items && forall it | it in items[1..] :: it in items;
      ItemBlockIsGood(st, n, items[0]);
      ItemBlocksAreGood(st, n + 1, items[1..]);
    }
  }

  lemma {:induction false} ItemsRoundTrip(st: Style, n: nat, items: seq<Item>)
    requires GoodItems(items)
    ensures BlockCues(Found(Cr(st), ItemBlocks(st, n, items))) == CuesOf(items)
    decreases items
  {
    if items != [] {
      assert items[0] in items && forall it | it in items[1..] :: it in items;
      var blocks, rest := ItemBlocks(st, n, items), ItemBlocks(st, n + 1, items[1..]);
      assert blocks[1..] == rest;
      var end := if |items| == 1 then "" else Cr(st);
      var first := ItemBlock(st, n, items[0]) + end;
      assert ItemBlock(st, n, items[0]) + "" == ItemBlock(st, n, items[0]);
      FoundFirst(Cr(st), blocks, rest, end);
      ItemRoundTrip(st, n, items[0], end);
      ItemsRoundTrip(st, n + 1, items[1..]);
      GatherConcat(BlockCue, [first], Found(Cr(st), rest));
      GatherOne(BlockCue, first);
    }
  }

  lemma FoundFirst(cr: string, blocks: seq<string>, rest: seq<string>, end: string)
    requires blocks != [] && blocks[1..] == rest && end == if |blocks| == 1 then "" else cr
    ensures Found(cr, blocks) == [blocks[0] + end] + Found(cr, rest)
  {
    assert blocks[0] + "" == blocks[0];
    if |blocks| == 1 {
      assert blocks == [blocks[0]] && rest == [];
    }
  }

  // ----- whole texts -----

  lemma {:induction false} StripMarks(n: nat, s: string)
    requires s != "" && s[0] != BOM
    ensures StripBoms(Marks(n) + s) == s
  {
    if n == 0 {
      assert Marks(n) + s == s;
    } else {
      assert (Marks(n) + s)[1..] == Marks(n - 1) + s;
      StripMarks(n - 1, s);
    }
  }

  lemma StripTrailing(s: string, cr: string)
    requires s != "" && !IsSpace(s[0]) && !IsSpace(s[|s| - 1]) && (cr == "" || cr == "\r")
    ensures Strip(s + (cr + "\n")) == s
  {
    var whole := s + (cr + "\n");
    assert StripLeft(whole) == whole;
    assert whole[..|whole| - 1] == s + cr;
    assert (s + "\r")[..|s|] == s;
    assert s + "" == s;
    assert StripRight(s) == s;
    assert StripRight(s + cr) == s;
  }

  lemma BodyCues(boms: nat, cr: string, body: string)
    requires body != "" && IsDigit(body[0]) && !IsSpace(body[|body| - 1]) && (cr == "" || cr == "\r")
    ensures Cues(Marks(boms) + (body + (cr + "\n"))) == BlockCues(SplitBlocks(body))
  {
    DigitIsNotSpace(body[0]);
    StripMarks(boms, body + (cr + "\n"));
    StripTrailing(body, cr);
  }

  lemma ItemsPrinted(st: Style, items: seq<Item>)
    requires items != [] && GoodItems(items)
    ensures Cues(Marks(st.boms) + (Body(Cr(st), ItemBlocks(st, 1, items)) + (Cr(st) + "\n"))) == CuesOf(items)
  {
    var blocks := ItemBlocks(st, 1, items);
    ItemBlocksAreGood(st, 1, items);
    assert Body(Cr(st), blocks) != "" && IsDigit(Body(Cr(st), blocks)[0])
        && !IsSpace(Body(Cr(st), blocks)[|Body(Cr(st), blocks)| - 1]) by {
      BodyIsOuter(Cr(st), blocks);
    }
    assert BlockCues(SplitBlocks(Body(Cr(st), blocks))) == CuesOf(items) by {
      BodySplits(Cr(st), blocks);
      ItemsRoundTrip(st, 1, items);
    }
    BodyCues(st.boms, Cr(st), Body(Cr(st), blocks));
  }

  /** Every time prints on one line, from a digit on, and reads back. */
  ghost predicate GoodClock(clock: nat -> string) {
    forall millis: nat :: Heading(clock(millis)) && ReadsBack(clock(millis), millis)
  }

  ghost predicate ReadsBack(from: string, start: nat) {
    forall to: string :: ParseTimestamp(Arrow(from, to)) == Some(start)
  }

  lemma ClockIsGood(st: Style)
    ensures GoodClock(ClockOf(st))
  {
    forall millis: nat ensures Heading(ClockOf(st)(millis)) {
      ClockIsHeading(millis, Point(st));
    }
    forall millis: nat ensures ReadsBack(ClockOf(st)(millis), millis) {
      ClockReadsBack(ClockOf(st)(millis), millis, Point(st), millis);
    }
  }

  lemma ClockReadsBack(from: string, millis: nat, point: char, start: nat)
    requires (point == ',' || point == '.') && from == Clock(millis, point) && start == millis
    ensures ReadsBack(from, start)
  {
    forall to: string ensures ParseTimestamp(Arrow(from, to)) == Some(start) {
      ClockRoundTrip(Arrow(from, to), start, millis, point, " --> " + to);
    }
  }

  lemma {:induction false} MappedHas<T, U>(f: T -> U, s: seq<T>)
    ensures forall y | y in Mapped(f, s) :: exists x :: x in s && f(x) == y
  {
    if s != [] {
      MappedHas(f, s[1..]);
      assert s == [s[0]] + s[1..];
    }
  }

  lemma {:induction false} MappedTwice<T, U, V>(f: U -> V, g: T -> U, h: T -> V, s: seq<T>)
    requires forall x | x in s :: f(g(x)) == h(x)
    ensures Mapped(f, Mapped(g, s)) == Mapped(h, s)
  {
    if s != [] {
      assert s[0] in s && forall x | x in s[1..] :: x in s;
      MappedTwice(f, g, h, s[1..]);
      assert Mapped(g, s)[1..] == Mapped(g, s[1..]);
    }
  }

  lemma RenderedAreGood(clock: nat -> string, entries: seq<Entry>)
    requires GoodClock(clock) && forall e | e in entries :: GoodLines(e.lines)
    ensures GoodItems(RenderAll(clock, entries))
  {
    MappedHas((e: Entry) => Rendered(clock, e), entries);
  }

  lemma RenderedCues(clock: nat -> string, entries: seq<Entry>)
    requires GoodClock(clock)
    ensures CuesOf(RenderAll(clock, entries)) == EntryCues(entries)
  {
    forall e | e in entries ensures CueOf(Rendered(clock, e)) == EntryCue(e) {
      assert ReadsBack(clock(e.from), e.from);
    }
    MappedTwice(CueOf, (e: Entry) => Rendered(clock, e), EntryCue, entries);
  }

  /** Round trip, in every style: whatever the byte order marks, line ends, numbers and decimal signs, each cue
      comes back with its start and its lines joined by single spaces. */
  lemma StyledRoundTrip(st: Style, entries: seq<Entry>)
    requires entries != [] && forall e | e in entries :: GoodLines(e.lines)
    ensures Cues(Printed(st, entries)) == EntryCues(entries)
  {
    ClockIsGood(st);
    RenderedAreGood(ClockOf(st), entries);
    RenderedCues(ClockOf(st), entries);
    ItemsPrinted(st, RenderAll(ClockOf(st), entries));
  }
}
