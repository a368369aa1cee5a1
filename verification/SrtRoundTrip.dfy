/** Parsing gives back exactly what `write_srt` printed, for exactly the texts that are one clean line each. */
module SrtRoundTrip {
  import opened Options
  import opened Decimal
  import opened SrtParser
  import opened SrtPrinter
  import opened SrtStyles
  import opened SrtLayout

  // ----- the printer's own style -----

  function EntryAt(times: nat -> nat, lines: seq<string>, i: nat): Entry
    requires i < |lines|
  {
    Entry(times(i), times(i + 1), [lines[i]])
  }

  /** The entries from the i-th on. */
  function EntriesFrom(times: nat -> nat, lines: seq<string>, i: nat): (entries: seq<Entry>)
    requires i <= |lines|
    ensures |entries| == |lines| - i
    decreases |lines| - i
  {
    if i == |lines| then [] else [EntryAt(times, lines, i)] + EntriesFrom(times, lines, i + 1)
  }

  function BlocksFrom(times: nat -> nat, lines: seq<string>, i: nat): seq<string>
    requires i <= |lines|
  {
    ItemBlocks(PLAIN, i + 1, RenderAll(ClockOf(PLAIN), EntriesFrom(times, lines, i)))
  }

  lemma SnocAt<T>(before: seq<T>, last: T, i: nat)
    requires i <= |before|
    ensures (before + [last])[i] == if i < |before| then before[i] else last
  {
  }

  lemma {:induction false} BlockAt(times: nat -> nat, lines: seq<string>, k: nat, i: nat)
    requires i < k <= |lines|
    ensures Blocks(times, lines, k)[i] == BlockText(times, lines, i)
  {
    if i < k - 1 {
      BlockAt(times, lines, k - 1, i);
    }
    SnocAt(Blocks(times, lines, k - 1), BlockText(times, lines, k - 1), i);
  }

  lemma FormatIsBlock(n: nat, e: Entry)
    requires |e.lines| == 1
    ensures FormatBlock(n, Clock(e.from, ','), Clock(e.to, ','), e.lines[0]) == ItemBlock(PLAIN, n, Rendered(ClockOf(PLAIN), e)) + "\n"
  {
    assert Cr(PLAIN) == "" && Point(PLAIN) == ',';
    Reassociate(Show(n), Clock(e.from, ','), Clock(e.to, ','), e.lines[0]);
  }

  lemma Reassociate(number: string, from: string, to: string, text: string)
    ensures number + "\n" + from + " --> " + to + "\n" + text + "\n" == Block(true, "", number, Arrow(from, to), text) + "\n"
  {
    var arrow := Arrow(from, to);
    assert number + "" == number && arrow + "" == arrow;
    assert number + "\n" + from + " --> " + to == number + ("\n" + arrow);
    assert number + ("\n" + arrow) + "\n" + text == number + ("\n" + (arrow + ("\n" + text)));
  }

  lemma {:induction false} PrinterIsPlain(times: nat -> nat, lines: seq<string>, i: nat)
    requires i < |lines|
    ensures BlocksFrom(times, lines, i) != []
    ensures JoinLf(Blocks(times, lines, |lines|)[i..]) == Body("", BlocksFrom(times, lines, i)) + "\n"
    decreases |lines| - i
  {
    var printed, blocks := Blocks(times, lines, |lines|)[i..], BlocksFrom(times, lines, i);
    FirstPrinted(times, lines, i);
    if i < |lines| - 1 {
      PrinterIsPlain(times, lines, i + 1);
      JoinPrinted(printed, Blocks(times, lines, |lines|)[i + 1..], blocks, BlocksFrom(times, lines, i + 1));
    } else {
      assert printed == [blocks[0] + "\n"];
    }
  }

  lemma JoinPrinted(printed: seq<string>, printed': seq<string>, blocks: seq<string>, blocks': seq<string>)
    requires |printed| == |blocks| > 1 && printed[1..] == printed' && blocks[1..] == blocks' && printed[0] == blocks[0] + "\n"
    requires JoinLf(printed') == Body("", blocks') + "\n"
    ensures JoinLf(printed) == Body("", blocks) + "\n"
  {
    JoinSteps(blocks[0], Body("", blocks'));
  }

  lemma FirstPrinted(times: nat -> nat, lines: seq<string>, i: nat)
    requires i < |lines|
    ensures var blocks := BlocksFrom(times, lines, i);
            && |blocks| == |lines| - i
            && Blocks(times, lines, |lines|)[i] == blocks[0] + "\n"
            && blocks[1..] == BlocksFrom(times, lines, i + 1)
  {
    var e, items := EntryAt(times, lines, i), RenderAll(ClockOf(PLAIN), EntriesFrom(times, lines, i));
    assert EntriesFrom(times, lines, i)[1..] == EntriesFrom(times, lines, i + 1);
    assert items[0] == Rendered(ClockOf(PLAIN), e) && items[1..] == RenderAll(ClockOf(PLAIN), EntriesFrom(times, lines, i + 1));
    BlockAt(times, lines, |lines|, i);
    FormatIsBlock(i + 1, e);
  }

  lemma JoinSteps(block: string, rest: string)
    ensures (block + "\n") + ("\n" + (rest + "\n")) == ((block + "") + ("\n" + ("" + ("\n" + rest)))) + "\n"
  {
    assert "" + ("\n" + rest) == "\n" + rest && block + "" == block;
  }

  lemma {:induction false} EntriesAreGood(times: nat -> nat, lines: seq<string>, i: nat)
    requires i <= |lines| && forall text | text in lines :: GoodText(text)
    ensures forall e | e in EntriesFrom(times, lines, i) :: GoodLines(e.lines)
    decreases |lines| - i
  {
    if i < |lines| {
      EntriesAreGood(times, lines, i + 1);
      assert lines[i] in lines;
    }
  }

  lemma PlainPrinted(body: string)
    ensures Marks(PLAIN.boms) + (body + (Cr(PLAIN) + "\n")) == body + "\n"
  {
    assert Marks(0) == "" && Cr(PLAIN) == "";
    assert "" + "\n" == "\n" && "" + (body + "\n") == body + "\n";
  }

  /** `write_srt` prints in the plain style. */
  lemma WrittenIsPrinted(times: nat -> nat, lines: seq<string>)
    requires lines != []
    ensures Written(times, lines) == Printed(PLAIN, EntriesFrom(times, lines, 0))
  {
    var blocks := Blocks(times, lines, |lines|);
    PrinterIsPlain(times, lines, 0);
    assert blocks[0..] == blocks;
    PlainPrinted(Body("", BlocksFrom(times, lines, 0)));
  }

  /** Each line as a cue, starting at its boundary. */
  function LineCues(times: nat -> nat, lines: seq<string>): (cues: seq<Cue>)
    ensures |cues| == |lines|
    ensures forall i | 0 <= i < |lines| :: cues[i] == Cue(Some(times(i)), lines[i])
  {
    seq(|lines|, i requires 0 <= i < |lines| => Cue(Some(times(i)), lines[i]))
  }

  lemma {:induction false} EntriesAt(times: nat -> nat, lines: seq<string>, i: nat)
    requires i <= |lines|
    ensures forall k | 0 <= k < |lines| - i :: EntriesFrom(times, lines, i)[k] == EntryAt(times, lines, i + k)
    decreases |lines| - i
  {
    if i < |lines| {
      EntriesAt(times, lines, i + 1);
    }
  }

  lemma {:induction false} MappedAt<T, U>(f: T -> U, s: seq<T>, k: nat)
    requires k < |s|
    ensures Mapped(f, s)[k] == f(s[k])
  {
    if k > 0 {
      MappedAt(f, s[1..], k - 1);
    }
  }

  lemma EntriesGiveLines(times: nat -> nat, lines: seq<string>)
    ensures EntryCues(EntriesFrom(times, lines, 0)) == LineCues(times, lines)
  {
    var entries := EntriesFrom(times, lines, 0);
    EntriesAt(times, lines, 0);
    forall k | 0 <= k < |lines| ensures EntryCues(entries)[k] == LineCues(times, lines)[k] {
      MappedAt(EntryCue, entries, k);
    }
  }

  // ----- and only those -----

  lemma {:induction false} LinesUnbroken(s: string)
    ensures forall line | line in SplitLines(s) :: Unbroken(line)
    decreases |s|
  {
    if s != "" {
      var end := LineEnd(s);
      BeforeLineEnd(s);
      if end == |s| {
        assert s[..end] == s;
      } else {
        LinesUnbroken(s[end + BreakLength(s[end..])..]);
      }
    }
  }

  lemma {:induction false} BeforeLineEnd(s: string)
    ensures Unbroken(s[..LineEnd(s)])
  {
    if s != "" && !IsBreak(s[0]) {
      BeforeLineEnd(s[1..]);
      assert s[..LineEnd(s)] == [s[0]] + s[1..][..LineEnd(s[1..])];
    }
  }

  lemma {:induction false} StripLeftIsGood(s: string)
    requires Unbroken(s)
    ensures Unbroken(StripLeft(s)) && (StripLeft(s) != "" ==> !IsSpace(StripLeft(s)[0]))
  {
    if s != "" && IsSpace(s[0]) {
      assert forall c | c in s[1..] :: c in s;
      StripLeftIsGood(s[1..]);
    }
  }

  lemma {:induction false} StripRightIsGood(s: string)
    requires Unbroken(s) && (s != "" ==> !IsSpace(s[0]))
    ensures StripRight(s) != "" ==> GoodText(StripRight(s))
  {
    if s != "" && IsSpace(s[|s| - 1]) {
      var init := s[..|s| - 1];
      assert forall c | c in init :: c in s;
      assert init != "" ==> init[0] == s[0];
      StripRightIsGood(init);
    }
  }

  lemma {:induction false} JoinIsGood(lines: seq<string>)
    requires forall line | line in lines :: Unbroken(line)
    ensures JoinLines(lines) != "" ==> GoodText(JoinLines(lines))
    decreases |lines|
  {
    if lines != [] {
      var before, last := JoinLines(lines[..|lines| - 1]), lines[|lines| - 1];
      assert last in lines && forall line | line in lines[..|lines| - 1] :: line in lines;
      JoinIsGood(lines[..|lines| - 1]);
      StripLeftIsGood(last);
      StripRightIsGood(StripLeft(last));
      if before != "" && Strip(last) != "" {
        GoodConcat(before, Strip(last));
      }
    }
  }

  lemma GoodConcat(a: string, b: string)
    requires GoodText(a) && GoodText(b)
    ensures GoodText(a + " " + b)
  {
    UnbrokenConcat(a, " ");
    UnbrokenConcat(a + " ", b);
  }

  lemma BlockCueIsGood(block: string)
    ensures forall cue | cue in BlockCue(block) :: GoodText(cue.text)
  {
    var lines := SplitLines(block);
    var at := ArrowLine(lines);
    LinesUnbroken(block);
    if at < |lines| {
      assert forall line | line in lines[at + 1..] :: line in lines;
      JoinIsGood(lines[at + 1..]);
    }
  }

  lemma {:induction false} BlockCuesAreGood(blocks: seq<string>)
    ensures forall cue | cue in BlockCues(blocks) :: GoodText(cue.text)
    decreases |blocks|
  {
    if blocks != [] {
      BlockCuesAreGood(blocks[..|blocks| - 1]);
      BlockCueIsGood(blocks[|blocks| - 1]);
    }
  }

  /** Whatever text is parsed, every cue is a non-empty single line without outer white space. */
  lemma ParsedTextsAreGood(text: string)
    ensures forall cue | cue in Cues(text) :: GoodText(cue.text)
  {
    BlockCuesAreGood(SplitBlocks(Strip(StripBoms(text))));
  }

  /** What `write_srt` prints parses back to its lines in order, each starting at its printed millisecond,
      if and only if every line is a non-empty single line without outer white space. */
  lemma SrtRoundTripIff(lines: seq<string>, duration: real)
    requires duration >= 0.0 && lines != []
    ensures var times := Boundary(duration, |lines|);
            Cues(Written(times, lines)) == LineCues(times, lines) <==> forall text | text in lines :: GoodText(text)
  {
    var times := Boundary(duration, |lines|);
    ParsedTextsAreGood(Written(times, lines));
    if Cues(Written(times, lines)) == LineCues(times, lines) {
      LinesAreGood(times, lines, LineCues(times, lines));
    }
    if forall text | text in lines :: GoodText(text) {
      WrittenIsPrinted(times, lines);
      EntriesGiveLines(times, lines);
      EntriesAreGood(times, lines, 0);
      StyledRoundTrip(PLAIN, EntriesFrom(times, lines, 0));
    }
  }

  lemma LinesAreGood(times: nat -> nat, lines: seq<string>, cues: seq<Cue>)
    requires cues == LineCues(times, lines) && forall cue | cue in cues :: GoodText(cue.text)
    ensures forall text | text in lines :: GoodText(text)
  {
    forall i | 0 <= i < |lines| ensures GoodText(lines[i]) {
      assert cues[i] in cues;
    }
  }
}
