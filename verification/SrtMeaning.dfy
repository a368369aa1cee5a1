/** What the subtitle parser makes of arbitrary text. */
module SrtMeaning {
  import opened Options
  import opened Decimal
  import opened SrtParser

  // ----- characters -----

  /** Python's white space: the code points with the bidirectional type WS, B or S, or the category Zs. */
  const WHITE_SPACE: set<int> :=
    {0x09, 0x0A, 0x0B, 0x0C, 0x0D, 0x1C, 0x1D, 0x1E, 0x1F, 0x20, 0x85, 0xA0, 0x1680, 0x2000, 0x2001, 0x2002, 0x2003,
     0x2004, 0x2005, 0x2006, 0x2007, 0x2008, 0x2009, 0x200A, 0x2028, 0x2029, 0x202F, 0x205F, 0x3000}

  /** The ends of lines of `str.splitlines`. */
  const LINE_ENDS: set<int> := {0x0A, 0x0B, 0x0C, 0x0D, 0x1C, 0x1D, 0x1E, 0x85, 0x2028, 0x2029}

  lemma CharactersIff(c: char)
    ensures IsSpace(c) <==> c as int in WHITE_SPACE
    ensures IsBreak(c) <==> c as int in LINE_ENDS
    ensures IsBreak(c) ==> IsSpace(c)
  {
  }

  // ----- no text is lost -----

  /** The characters that are not white space. */
  function Ink(s: string): string {
    if s == "" then "" else Ink(s[..|s| - 1]) + if IsSpace(s[|s| - 1]) then "" else [s[|s| - 1]]
  }

  function InkAll(lines: seq<string>): string {
    if lines == [] then "" else InkAll(lines[..|lines| - 1]) + Ink(lines[|lines| - 1])
  }

  lemma {:induction false} InkConcat(a: string, b: string)
    ensures Ink(a + b) == Ink(a) + Ink(b)
    decreases |b|
  {
    if b == "" {
      assert a + b == a;
    } else {
      assert (a + b)[..|a + b| - 1] == a + b[..|b| - 1];
      InkConcat(a, b[..|b| - 1]);
    }
  }

  lemma {:induction false} InkOfStripLeft(s: string)
    ensures Ink(StripLeft(s)) == Ink(s)
  {
    if s != "" && IsSpace(s[0]) {
      assert s == [s[0]] + s[1..];
      InkConcat([s[0]], s[1..]);
      assert [s[0]][..0] == "" && Ink("") == "";
      InkOfStripLeft(s[1..]);
    }
  }

  lemma {:induction false} InkOfStripRight(s: string)
    ensures Ink(StripRight(s)) == Ink(s)
  {
    if s != "" && IsSpace(s[|s| - 1]) {
      InkOfStripRight(s[..|s| - 1]);
    }
  }

  lemma {:induction false} InkOfJoin(lines: seq<string>)
    ensures Ink(JoinLines(lines)) == InkAll(lines)
    decreases |lines|
  {
    if lines != [] {
      var before, last := JoinLines(lines[..|lines| - 1]), lines[|lines| - 1];
      InkOfJoin(lines[..|lines| - 1]);
      InkOfStripRight(StripLeft(last));
      InkOfStripLeft(last);
      if before != "" && Strip(last) != "" {
        InkConcat(before + " ", Strip(last));
        InkConcat(before, " ");
        assert " "[..0] == "" && Ink("") == "" && Ink(" ") == "";
      } else {
        assert Ink("") == "";
      }
    }
  }

  lemma {:induction false} BlankIff(lines: seq<string>)
    ensures JoinLines(lines) == "" <==> InkAll(lines) == ""
    decreases |lines|
  {
    if lines != [] {
      var last := lines[|lines| - 1];
      BlankIff(lines[..|lines| - 1]);
      InkOfStripRight(StripLeft(last));
      InkOfStripLeft(last);
      StrippedInk(last);
    }
  }

  lemma StrippedInk(s: string)
    ensures Strip(s) != "" ==> Ink(Strip(s)) != ""
  {
    StripRightEnds(StripLeft(s));
  }

  lemma {:induction false} StripRightEnds(s: string)
    ensures StripRight(s) != "" ==> !IsSpace(StripRight(s)[|StripRight(s)| - 1])
  {
    if s != "" && IsSpace(s[|s| - 1]) {
      StripRightEnds(s[..|s| - 1]);
    }
  }

  // ----- blocks -----

  /** Line i is the first with an arrow. */
  predicate FirstArrow(lines: seq<string>, i: nat) {
    i < |lines| && HasArrow(lines[i]) && forall j | 0 <= j < i :: !HasArrow(lines[j])
  }

  lemma {:induction false} ArrowLineIs(lines: seq<string>)
    ensures ArrowLine(lines) < |lines| ==> FirstArrow(lines, ArrowLine(lines))
    ensures ArrowLine(lines) == |lines| ==> forall line | line in lines :: !HasArrow(line)
  {
    if lines != [] && !HasArrow(lines[0]) {
      ArrowLineIs(lines[1..]);
      assert lines == [lines[0]] + lines[1..];
    }
  }

  predicate ArrowAt(line: string, i: nat) {
    i + 3 <= |line| && line[i] == '-' && line[i + 1] == '-' && line[i + 2] == '>'
  }

  /** The arrow is found anywhere in the line. */
  lemma {:induction false} HasArrowIff(line: string)
    ensures HasArrow(line) <==> exists i: nat :: ArrowAt(line, i)
  {
    if line != "" {
      HasArrowIff(line[1..]);
      assert "-->" <= line <==> ArrowAt(line, 0);
      if i: nat :| ArrowAt(line[1..], i) {
        assert ArrowAt(line, i + 1);
      }
      if i: nat :| ArrowAt(line, i) {
        assert i > 0 ==> ArrowAt(line[1..], i - 1);
      }
    }
  }

  /** A block gives no cue if no line has an arrow or only white space follows it, and otherwise one: with all that
      is not white space in the lines after the arrow, in order, and with the start its arrow line shows, if any. */
  lemma BlockGivesIff(block: string)
    ensures var lines, cues := SplitLines(block), BlockCue(block);
            && (cues == [] <==> forall i | 0 <= i < |lines| && FirstArrow(lines, i) :: InkAll(lines[i + 1..]) == "")
            && |cues| <= 1
            && (cues != [] ==> exists i :: 0 <= i < |lines| && Gives(lines, i, cues[0]))
  {
    var lines := SplitLines(block);
    var at := ArrowLine(lines);
    ArrowLineIs(lines);
    if at < |lines| {
      InkOfJoin(lines[at + 1..]);
      BlankIff(lines[at + 1..]);
      assert forall i | 0 <= i < |lines| && FirstArrow(lines, i) :: i == at;
      if BlockCue(block) != [] {
        assert Gives(lines, at, BlockCue(block)[0]);
      }
    }
  }

  predicate Gives(lines: seq<string>, i: nat, cue: Cue) {
    FirstArrow(lines, i) && Ink(cue.text) == InkAll(lines[i + 1..]) && cue.start == ParseTimestamp(lines[i])
  }

  // ----- timestamps -----

  /** `(\d+):(\d{2}):(\d{2})[,.](\d{3})` matches at the front, with h hour digits, and says v thousandths. */
  predicate Shows(s: string, h: nat, v: nat) {
    && 0 < h && h + 10 <= |s|
    && AllDigits(s[..h]) && s[h] == ':' && AllDigits(s[h + 1..h + 3]) && s[h + 3] == ':' && AllDigits(s[h + 4..h + 6])
    && (s[h + 6] == ',' || s[h + 6] == '.') && AllDigits(s[h + 7..h + 10])
    && v == Value(s[..h]) * 3600000 + Value(s[h + 1..h + 3]) * 60000 + Value(s[h + 4..h + 6]) * 1000 + Value(s[h + 7..h + 10])
  }

  lemma {:induction false} DigitRunEnds(s: string, h: nat)
    requires h < |s| && AllDigits(s[..h]) && !IsDigit(s[h])
    ensures DigitRun(s) == h
  {
    if h > 0 {
      assert s[..h][0] == s[0];
      assert s[1..][..h - 1] == s[..h][1..];
      DigitRunEnds(s[1..], h - 1);
    }
  }

  predicate IsHere(s: string, v: nat) {
    TimestampHere(s) == Some(v)
  }

  lemma HereIff(s: string, v: nat)
    ensures IsHere(s, v) <==> exists h: nat :: Shows(s, h, v)
  {
    var k := DigitRun(s);
    if TimestampHere(s) == Some(v) {
      assert Shows(s, k, v);
    }
    if h: nat :| Shows(s, h, v) {
      DigitRunEnds(s, h);
    }
  }

  ghost predicate ShowsAt(line: string, i: nat, v: nat) {
    i <= |line| && exists h: nat :: Shows(line[i..], h, v)
  }

  /** The start is the leftmost timestamp of the line, and missing exactly if there is none. */
  lemma {:induction false} ParseTimestampIff(line: string)
    ensures ParseTimestamp(line).None? <==> forall i: nat, v: nat :: !ShowsAt(line, i, v)
    ensures ParseTimestamp(line).Some? ==>
              exists i: nat :: ShowsAt(line, i, ParseTimestamp(line).value)
                               && forall j: nat, v: nat | j < i :: !ShowsAt(line, j, v)
  {
    forall v: nat ensures IsHere(line, v) <==> ShowsAt(line, 0, v) {
      assert line[0..] == line;
      HereIff(line, v);
    }
    if TimestampHere(line).Some? {
      assert IsHere(line, TimestampHere(line).value);
      assert ShowsAt(line, 0, TimestampHere(line).value);
    } else if line != "" {
      ParseTimestampIff(line[1..]);
      forall i: nat, v: nat ensures ShowsAt(line, i + 1, v) <==> ShowsAt(line[1..], i, v) {
        if i < |line| {
          assert line[i + 1..] == line[1..][i..];
        }
      }
      if ParseTimestamp(line[1..]).Some? {
        var v := ParseTimestamp(line[1..]).value;
        var i: nat :| ShowsAt(line[1..], i, v) && forall j: nat, u: nat | j < i :: !ShowsAt(line[1..], j, u);
        assert ShowsAt(line, i + 1, v);
        forall j: nat, u: nat | j < i + 1 ensures !ShowsAt(line, j, u) {
          if j > 0 {
            assert ShowsAt(line, j - 1 + 1, u) <==> ShowsAt(line[1..], j - 1, u);
          }
        }
      } else {
        forall i: nat, u: nat ensures !ShowsAt(line, i, u) {
          if i > 0 {
            assert ShowsAt(line, i - 1 + 1, u) <==> ShowsAt(line[1..], i - 1, u);
          }
        }
      }
    }
  }
}
