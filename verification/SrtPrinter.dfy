/** `_srt_timestamp` and `write_srt` of `demo/generate_media.py`. */
module SrtPrinter {
  import opened Decimal

  /** Python's `round`: to the nearest integer, halves to the even one. */
  function Round(x: real): int {
    var below := x.Floor;
    var rest := x - below as real;
    if rest < 0.5 then below
    else if rest > 0.5 then below + 1
    else if below % 2 == 0 then below
    else below + 1
  }

  lemma RoundIsNearest(x: real)
    ensures -0.5 <= Round(x) as real - x <= 0.5
    ensures x >= 0.0 ==> Round(x) >= 0
    ensures Round(x) as real - x == 0.5 || x - Round(x) as real == 0.5 ==> Round(x) % 2 == 0
  {
  }

  /** Milliseconds, rounded. */
  function Millis(seconds: real): nat
    requires seconds >= 0.0
  {
    RoundIsNearest(seconds * 1000.0);
    Round(seconds * 1000.0)
  }

  function Clock(millis: nat, point: char): string {
    var hours, rest := millis / 3600000, millis % 3600000;
    var minutes, rest' := rest / 60000, rest % 60000;
    Padded(hours, 2) + (":" + (Padded(minutes, 2) + (":" + (Padded(rest' / 1000, 2) + ([point] + Padded(rest' % 1000, 3))))))
  }

  function SrtTimestamp(seconds: real): string
    requires seconds >= 0.0
  {
    Clock(Millis(seconds), ',')
  }

  /** `"\n".join(parts)`. */
  function JoinLf(parts: seq<string>): string {
    if parts == [] then ""
    else if |parts| == 1 then parts[0]
    else parts[0] + ("\n" + JoinLf(parts[1..]))
  }

  /** Where the i-th of n cues starts. */
  function CueStart(duration: real, n: nat, i: nat): (start: real)
    requires duration >= 0.0 && n > 0
    ensures start >= 0.0
  {
    var length := duration / n as real;
    NonNegative(duration, n as real, i as real);
    i as real * length
  }

  lemma NonNegative(d: real, n: real, i: real)
    requires d >= 0.0 && n > 0.0 && i >= 0.0
    ensures i * (d / n) >= 0.0
  {
  }

  /** One cue: its number, its times, its text. */
  function FormatBlock(number: nat, start: string, end: string, text: string): string {
    Show(number) + "\n" + start + " --> " + end + "\n" + text + "\n"
  }

  /** Where the cues meet, in milliseconds. */
  function Boundary(duration: real, n: nat): nat -> nat
    requires duration >= 0.0 && n > 0
  {
    (i: nat) => Millis(CueStart(duration, n, i))
  }

  function BlockText(times: nat -> nat, lines: seq<string>, i: nat): string
    requires i < |lines|
  {
    FormatBlock(i + 1, Clock(times(i), ','), Clock(times(i + 1), ','), lines[i])
  }

  /** The blocks of the first k cues. */
  function Blocks(times: nat -> nat, lines: seq<string>, k: nat): (blocks: seq<string>)
    requires k <= |lines|
    ensures |blocks| == k
  {
    if k == 0 then [] else Blocks(times, lines, k - 1) + [BlockText(times, lines, k - 1)]
  }

  /** All of the text: the blocks, joined by newlines. */
  function Written(times: nat -> nat, lines: seq<string>): string {
    JoinLf(Blocks(times, lines, |lines|))
  }

  /** The text `write_srt` writes; it divides by the number of lines. */
  method WriteSrt(lines: seq<string>, duration: real) returns (text: string)
    requires duration >= 0.0 && lines != []
    ensures text == Written(Boundary(duration, |lines|), lines)
  {
    var cueLength := duration / |lines| as real;
    var blocks := PrintBlocks(Boundary(duration, |lines|), lines, duration, cueLength);
    return JoinLf(blocks);
  }

  method PrintBlocks(ghost times: nat -> nat, lines: seq<string>, ghost duration: real, cueLength: real) returns (blocks: seq<string>)
    requires duration >= 0.0 && lines != [] && Meets(times, duration, |lines|, cueLength)
    ensures blocks == Blocks(times, lines, |lines|)
  {
    blocks := [];
    for i := 0 to |lines|
      invariant blocks == Blocks(times, lines, i)
    {
      var start := PrintTime(times, duration, |lines|, cueLength, i);
      var end := PrintTime(times, duration, |lines|, cueLength, i + 1);
      blocks := blocks + [FormatBlock(i + 1, start, end, lines[i])];
    }
  }

  ghost predicate Meets(times: nat -> nat, duration: real, n: nat, length: real)
    requires duration >= 0.0 && n > 0
  {
    times == Boundary(duration, n) && length == duration / n as real
  }

  method PrintTime(ghost times: nat -> nat, ghost duration: real, ghost n: nat, cueLength: real, i: nat) returns (time: string)
    requires duration >= 0.0 && n > 0 && Meets(times, duration, n, cueLength)
    ensures time == Clock(times(i), ',')
  {
    var seconds := i as real * cueLength;
    assert seconds == CueStart(duration, n, i);
    assert times(i) == Millis(seconds);
    time := SrtTimestamp(seconds);
  }
}
