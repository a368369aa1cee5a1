/** `plugins/subtitles.py`: cues out of subtitle text. */
module SrtParser {
  import opened Options
  import opened Decimal

  /** A cue; its start, in thousandths of a second, is missing if its timestamp line does not parse. */
  datatype Cue = Cue(start: Option<nat>, text: string)

  // ----- characters -----

  /** `str.isspace` and the regular expression class `\s`. */
  predicate IsSpace(c: char) {
    || 9 <= c as int <= 13 || 28 <= c as int <= 32 || c as int == 0x85 || c as int == 0xA0 || c as int == 0x1680
    || 0x2000 <= c as int <= 0x200A || c as int == 0x2028 || c as int == 0x2029 || c as int == 0x202F
    || c as int == 0x205F || c as int == 0x3000
  }

  /** Where `str.splitlines` breaks. */
  predicate IsBreak(c: char) {
    10 <= c as int <= 13 || 28 <= c as int <= 30 || c as int == 0x85 || c as int == 0x2028 || c as int == 0x2029
  }

  const BOM: char := '\U{feff}'

  // ----- strip -----

  function StripBoms(s: string): string {
    if s != "" && s[0] == BOM then StripBoms(s[1..]) else s
  }

  function StripLeft(s: string): string {
    if s != "" && IsSpace(s[0]) then StripLeft(s[1..]) else s
  }

  function StripRight(s: string): string {
    if s != "" && IsSpace(s[|s| - 1]) then StripRight(s[..|s| - 1]) else s
  }

  function Strip(s: string): string {
    StripRight(StripLeft(s))
  }

  // ----- blocks -----

  function SpaceRun(s: string): (n: nat)
    ensures n <= |s|
  {
    if s != "" && IsSpace(s[0]) then 1 + SpaceRun(s[1..]) else 0
  }

  /** The length up to and with the last newline, 0 if there is none. */
  function UpToNewline(s: string): (n: nat)
    ensures n <= |s|
  {
    if s == "" then 0
    else if s[|s| - 1] == '\n' then |s|
    else UpToNewline(s[..|s| - 1])
  }

  /** The length of a match of `\n\s*\n` at the start, 0 if there is none; the white space is greedy, so
      the match ends with the last newline of the run. */
  function SeparatorLength(s: string): (n: nat)
    ensures n <= |s|
  {
    if s == "" || s[0] != '\n' then 0
    else
      var rest := s[1..];
      var upTo := UpToNewline(rest[..SpaceRun(rest)]);
      if upTo == 0 then 0 else 1 + upTo
  }

  /** Where the leftmost separator starts; the length if there is none. */
  function BlockEnd(s: string): (n: nat)
    ensures n <= |s|
  {
    if s == "" || SeparatorLength(s) > 0 then 0 else 1 + BlockEnd(s[1..])
  }

  /** `re.split`: `start` is where the leftmost match of the pattern is, `length` how long a match at the
      front is.  A pattern that finds empty matches does not split. */
  function Split(start: string -> nat, length: string -> nat, s: string): seq<string>
    decreases |s|
  {
    var end := start(s);
    if end >= |s| then [s]
    else
      var next := end + length(s[end..]);
      if end < next <= |s| then [s[..end]] + Split(start, length, s[next..]) else [s]
  }

  /** `re.split(r"\n\s*\n", s)`. */
  function SplitBlocks(s: string): seq<string> {
    Split(BlockEnd, SeparatorLength, s)
  }

  /** Blocks are split wherever a separator starts: it is never empty. */
  lemma {:induction false} SeparatorFound(s: string)
    requires BlockEnd(s) < |s|
    ensures SeparatorLength(s[BlockEnd(s)..]) > 0
  {
    if SeparatorLength(s) > 0 {
      assert s[0..] == s;
    } else {
      SeparatorFound(s[1..]);
      assert s[1..][BlockEnd(s[1..])..] == s[BlockEnd(s)..];
    }
  }

  // ----- lines -----

  function LineEnd(s: string): (n: nat)
    ensures n <= |s|
    ensures n < |s| ==> IsBreak(s[n])
  {
    if s == "" || IsBreak(s[0]) then 0 else 1 + LineEnd(s[1..])
  }

  /** A carriage return and a newline break once. */
  function BreakLength(s: string): (n: nat)
    requires s != ""
    ensures 1 <= n <= |s|
  {
    if |s| >= 2 && s[0] == '\r' && s[1] == '\n' then 2 else 1
  }

  /** `s.splitlines()`. */
  function SplitLines(s: string): seq<string>
    decreases |s|
  {
    if s == "" then []
    else
      var end := LineEnd(s);
      if end == |s| then [s] else [s[..end]] + SplitLines(s[end + BreakLength(s[end..])..])
  }

  predicate HasArrow(line: string) {
    line != "" && ("-->" <= line || HasArrow(line[1..]))
  }

  /** The index of the first timestamp line; the number of lines if there is none. */
  function ArrowLine(lines: seq<string>): (n: nat)
    ensures n <= |lines|
  {
    if lines == [] || HasArrow(lines[0]) then 0 else 1 + ArrowLine(lines[1..])
  }

  // ----- timestamps -----

  function DigitRun(s: string): (n: nat)
    ensures n <= |s| && AllDigits(s[..n])
  {
    if s != "" && IsDigit(s[0]) then
      var n := 1 + DigitRun(s[1..]);
      assert forall i | 0 < i < n :: s[..n][i] == s[1..][..n - 1][i - 1];
      n
    else 0
  }

  /** Two or three digits at a position. */
  function Field(s: string, at: nat, width: nat): Option<nat> {
    if at + width <= |s| && AllDigits(s[at..at + width]) then Some(Value(s[at..at + width])) else None
  }

  function Is(s: string, at: nat, c: char): bool {
    at < |s| && s[at] == c
  }

  /** A match of `(\d+):(\d{2}):(\d{2})[,.](\d{3})` at the start, given its k hour digits, in
      thousandths of a second. */
  function TimestampAfter(s: string, k: nat): Option<nat>
    requires k <= |s| && AllDigits(s[..k])
  {
    var minutes, seconds, millis := Field(s, k + 1, 2), Field(s, k + 4, 2), Field(s, k + 7, 3);
    if k > 0 && Is(s, k, ':') && minutes.Some? && Is(s, k + 3, ':') && seconds.Some?
       && (Is(s, k + 6, ',') || Is(s, k + 6, '.')) && millis.Some?
    then Some(1000 * (Value(s[..k]) * 3600 + minutes.value * 60 + seconds.value) + millis.value)
    else None
  }

  function TimestampHere(s: string): Option<nat> {
    TimestampAfter(s, DigitRun(s))
  }

  /** `_parse_timestamp_s`: the leftmost timestamp of a line. */
  function ParseTimestamp(line: string): Option<nat> {
    if TimestampHere(line).Some? then TimestampHere(line)
    else if line == "" then None
    else ParseTimestamp(line[1..])
  }

  // ----- cues -----

  /** The stripped lines that are not blank, joined by single spaces. */
  function JoinLines(lines: seq<string>): string {
    if lines == [] then ""
    else
      var before, last := JoinLines(lines[..|lines| - 1]), Strip(lines[|lines| - 1]);
      if last == "" then before else if before == "" then last else before + " " + last
  }

  /** At most one cue per block. */
  function BlockCue(block: string): seq<Cue> {
    var lines := SplitLines(block);
    var at := ArrowLine(lines);
    if at == |lines| then []
    else
      var text := JoinLines(lines[at + 1..]);
      if text == "" then [] else [Cue(ParseTimestamp(lines[at]), text)]
  }

  function Gather(f: string -> seq<Cue>, blocks: seq<string>): seq<Cue> {
    if blocks == [] then [] else Gather(f, blocks[..|blocks| - 1]) + f(blocks[|blocks| - 1])
  }

  function BlockCues(blocks: seq<string>): seq<Cue> {
    Gather(BlockCue, blocks)
  }

  /** `_iter_cues`, which `parse_srt` and `parse_srt_timed` present. */
  function Cues(text: string): seq<Cue> {
    BlockCues(SplitBlocks(Strip(StripBoms(text))))
  }

  method IterCues(text: string) returns (cues: seq<Cue>)
    ensures cues == Cues(text)
  {
    var blocks := SplitBlocks(Strip(StripBoms(text)));
    cues := [];
    for i := 0 to |blocks|
      invariant cues == BlockCues(blocks[..i])
    {
      assert blocks[..i + 1][..i] == blocks[..i];
      var found := CueIn(blocks[i]);
      cues := cues + found;
    }
    assert blocks[..|blocks|] == blocks;
  }

  method CueIn(block: string) returns (cues: seq<Cue>)
    ensures cues == BlockCue(block)
  {
    var lines := SplitLines(block);
    var at := FindArrow(lines);
    if at == |lines| {
      return [];
    }
    var text := JoinNonBlank(lines[at + 1..]);
    return if text == "" then [] else [Cue(ParseTimestamp(lines[at]), text)];
  }

  method FindArrow(lines: seq<string>) returns (at: nat)
    ensures at == ArrowLine(lines)
  {
    at := 0;
    while at < |lines| && !HasArrow(lines[at])
      invariant at <= |lines| && ArrowLine(lines) == at + ArrowLine(lines[at..])
    {
      assert lines[at..][1..] == lines[at + 1..];
      at := at + 1;
    }
  }

  method JoinNonBlank(lines: seq<string>) returns (text: string)
    ensures text == JoinLines(lines)
  {
    text := "";
    for i := 0 to |lines|
      invariant text == JoinLines(lines[..i])
    {
      assert lines[..i + 1][..i] == lines[..i];
      var line := Strip(lines[i]);
      if line != "" {
        text := if text == "" then line else text + " " + line;
      }
    }
    assert lines[..|lines|] == lines;
  }
}
