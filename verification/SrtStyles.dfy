/** Printed subtitle text in the styles the parser says it tolerates, and its timestamps read back. */
module SrtStyles {
  import opened Options
  import opened Decimal
  import opened SrtParser
  import opened SrtPrinter

  // ----- texts -----

  predicate Unbroken(s: string) {
    forall c | c in s :: !IsBreak(c)
  }

  /** Non-empty, on a single line, without outer white space. */
  predicate GoodText(s: string) {
    s != "" && Unbroken(s) && !IsSpace(s[0]) && !IsSpace(s[|s| - 1])
  }

  lemma UnbrokenConcat(a: string, b: string)
    requires Unbroken(a) && Unbroken(b)
    ensures Unbroken(a + b)
  {
  }

  lemma DigitsUnbroken(s: string)
    requires AllDigits(s)
    ensures Unbroken(s) && forall c | c in s :: !IsSpace(c)
  {
  }

  // ----- styles -----

  /** Byte order marks before the text, line ends, numbers before the cues, the decimal sign. */
  datatype Style = Style(boms: nat, crlf: bool, numbered: bool, dot: bool)

  const PLAIN: Style := Style(0, false, true, false)

  /** A cue to print: its times in milliseconds and the lines of its text. */
  datatype Entry = Entry(from: nat, to: nat, lines: seq<string>)

  /** The same with its times printed. */
  datatype Item = Item(from: string, to: string, lines: seq<string>)

  function ClockOf(st: Style): nat -> string {
    (millis: nat) => Clock(millis, Point(st))
  }

  function Rendered(clock: nat -> string, e: Entry): Item {
    Item(clock(e.from), clock(e.to), e.lines)
  }

  function Mapped<T, U>(f: T -> U, s: seq<T>): (r: seq<U>)
    ensures |r| == |s|
  {
    if s == [] then [] else [f(s[0])] + Mapped(f, s[1..])
  }

  function RenderAll(clock: nat -> string, entries: seq<Entry>): (items: seq<Item>)
    ensures |items| == |entries|
  {
    Mapped((e: Entry) => Rendered(clock, e), entries)
  }

  function Cr(st: Style): string {
    if st.crlf then "\r" else ""
  }

  function Point(st: Style): char {
    if st.dot then '.' else ','
  }

  function Arrow(from: string, to: string): string {
    from + (" --> " + to)
  }

  /** One block without its last line end. */
  function Block(numbered: bool, cr: string, number: string, arrow: string, text: string): string {
    if numbered then (number + cr) + ("\n" + ((arrow + cr) + ("\n" + text))) else (arrow + cr) + ("\n" + text)
  }

  /** The lines of a cue, each but the last with its line end. */
  function TextOf(cr: string, lines: seq<string>): string {
    if lines == [] then ""
    else if |lines| == 1 then lines[0]
    else (lines[0] + cr) + ("\n" + TextOf(cr, lines[1..]))
  }

  /** The lines on one line, with single spaces between them. */
  function Spaced(lines: seq<string>): string {
    if lines == [] then ""
    else if |lines| == 1 then lines[0]
    else lines[0] + (" " + Spaced(lines[1..]))
  }

  /** At least one line, and every line clean. */
  predicate GoodLines(lines: seq<string>) {
    lines != [] && forall line | line in lines :: GoodText(line)
  }

  function ItemBlock(st: Style, n: nat, it: Item): string {
    Block(st.numbered, Cr(st), Show(n), Arrow(it.from, it.to), TextOf(Cr(st), it.lines))
  }

  /** The items' blocks, numbered from n. */
  function ItemBlocks(st: Style, n: nat, items: seq<Item>): (blocks: seq<string>)
    ensures |blocks| == |items|
    decreases items
  {
    if items == [] then [] else [ItemBlock(st, n, items[0])] + ItemBlocks(st, n + 1, items[1..])
  }

  /** The blocks with a blank line between them. */
  function Body(cr: string, blocks: seq<string>): string
    requires blocks != []
  {
    if |blocks| == 1 then blocks[0]
    else (blocks[0] + cr) + ("\n" + (cr + ("\n" + Body(cr, blocks[1..]))))
  }

  function Marks(n: nat): string {
    if n == 0 then "" else [BOM] + Marks(n - 1)
  }

  function Printed(st: Style, entries: seq<Entry>): string
    requires entries != []
  {
    Marks(st.boms) + (Body(Cr(st), ItemBlocks(st, 1, RenderAll(ClockOf(st), entries))) + (Cr(st) + "\n"))
  }

  function CueOf(it: Item): Cue {
    Cue(ParseTimestamp(Arrow(it.from, it.to)), Spaced(it.lines))
  }

  function CuesOf(items: seq<Item>): seq<Cue> {
    Mapped(CueOf, items)
  }

  /** What an entry should parse to. */
  function EntryCue(e: Entry): Cue {
    Cue(Some(e.from), Spaced(e.lines))
  }

  function EntryCues(entries: seq<Entry>): seq<Cue> {
    Mapped(EntryCue, entries)
  }

  /** On one line, beginning with a digit. */
  predicate Heading(s: string) {
    Unbroken(s) && s != "" && IsDigit(s[0])
  }

  predicate GoodItem(it: Item) {
    GoodLines(it.lines) && Heading(it.from) && Heading(it.to)
  }

  predicate GoodItems(items: seq<Item>) {
    forall it | it in items :: GoodItem(it)
  }

  // ----- timestamps -----

  lemma {:induction false} DigitRunOf(digits: string, rest: string)
    requires AllDigits(digits) && rest != "" && !IsDigit(rest[0])
    ensures DigitRun(digits + rest) == |digits|
  {
    if digits == "" {
      assert digits + rest == rest;
    } else {
      assert (digits + rest)[1..] == digits[1..] + rest;
      DigitRunOf(digits[1..], rest);
    }
  }

  /** The fields behind the hours. */
  lemma TailPieces(t: string, m: string, s: string, point: char, ms: string, rest: string)
    requires t == ":" + (m + (":" + (s + ([point] + (ms + rest)))))
    requires AllDigits(m) && |m| == 2 && AllDigits(s) && |s| == 2 && AllDigits(ms) && |ms| == 3
    ensures Tail(t, m, s, point, ms)
  {
    var t4 := [point] + (ms + rest);
    var t3 := s + t4;
    var t2 := ":" + t3;
    assert t[1..3] == m && t[3..] == t2;
    assert t[4..6] == t2[1..3] == s && t[6..] == t4;
    assert t[7..10] == t4[1..4] == ms;
  }

  lemma FieldIn(line: string, h: string, t: string, at: nat, field: string)
    requires line == h + t && at + |field| <= |t| && t[at..at + |field|] == field && AllDigits(field)
    ensures Field(line, |h| + at, |field|) == Some(Value(field))
  {
    assert line[|h| + at..|h| + at + |field|] == field;
  }

  /** The hour digits, the other numbers and the marks of a timestamp. */
  ghost predicate HoursAt(line: string, k: nat, h: nat) {
    DigitRun(line) == k && 0 < k <= |line| && AllDigits(line[..k]) && Value(line[..k]) == h
  }

  ghost predicate NumbersAt(line: string, k: nat, m: nat, s: nat, ms: nat) {
    Field(line, k + 1, 2) == Some(m) && Field(line, k + 4, 2) == Some(s) && Field(line, k + 7, 3) == Some(ms)
  }

  ghost predicate MarksAt(line: string, k: nat) {
    Is(line, k, ':') && Is(line, k + 3, ':') && (Is(line, k + 6, ',') || Is(line, k + 6, '.'))
  }

  lemma ReadFields(line: string, k: nat, h: nat, m: nat, s: nat, ms: nat)
    requires HoursAt(line, k, h) && NumbersAt(line, k, m, s, ms) && MarksAt(line, k)
    ensures TimestampHere(line) == Some(1000 * (h * 3600 + m * 60 + s) + ms)
  {
  }

  lemma HourDigits(line: string, h: string, t: string)
    requires line == h + t && AllDigits(h) && h != "" && t != "" && t[0] == ':'
    ensures HoursAt(line, |h|, Value(h))
  {
    DigitRunOf(h, t);
    assert line[..|h|] == h;
  }

  /** What follows the hours. */
  ghost predicate Tail(t: string, m: string, s: string, point: char, ms: string) {
    && |t| >= 10 && t[0] == ':' && t[1..3] == m && t[3] == ':' && t[4..6] == s && t[6] == point && t[7..10] == ms
    && AllDigits(m) && |m| == 2 && AllDigits(s) && |s| == 2 && AllDigits(ms) && |ms| == 3
  }

  lemma TailNumbers(line: string, h: string, t: string, m: string, s: string, point: char, ms: string)
    requires line == h + t && Tail(t, m, s, point, ms)
    ensures NumbersAt(line, |h|, Value(m), Value(s), Value(ms))
  {
    assert Field(line, |h| + 1, 2) == Some(Value(m)) by {
      FieldIn(line, h, t, 1, m);
    }
    assert Field(line, |h| + 4, 2) == Some(Value(s)) by {
      FieldIn(line, h, t, 4, s);
    }
    assert Field(line, |h| + 7, 3) == Some(Value(ms)) by {
      FieldIn(line, h, t, 7, ms);
    }
  }

  lemma TailMarks(line: string, h: string, t: string, m: string, s: string, point: char, ms: string)
    requires line == h + t && Tail(t, m, s, point, ms) && (point == ',' || point == '.')
    ensures MarksAt(line, |h|)
  {
  }

  /** A line that starts with a clock, taken apart. */
  ghost predicate ClockLine(line: string, start: nat, h: string, m: string, s: string, point: char, ms: string, rest: string) {
    && line == h + (":" + (m + (":" + (s + ([point] + (ms + rest))))))
    && AllDigits(h) && h != "" && AllDigits(m) && |m| == 2 && AllDigits(s) && |s| == 2 && AllDigits(ms) && |ms| == 3
    && start == 1000 * (Value(h) * 3600 + Value(m) * 60 + Value(s)) + Value(ms)
  }

  lemma ClockIs(millis: nat, point: char, rest: string) returns (h: string, m: string, s: string, ms: string)
    ensures ClockLine(Clock(millis, point) + rest, millis, h, m, s, point, ms, rest)
  {
    var r := millis % 3600000;
    h, m, s, ms := Padded(millis / 3600000, 2), Padded(r / 60000, 2), Padded(r % 60000 / 1000, 2), Padded(r % 60000 % 1000, 3);
    Regroup(h, m, s, point, ms, rest);
  }

  lemma Regroup(h: string, m: string, s: string, point: char, ms: string, rest: string)
    ensures (h + (":" + (m + (":" + (s + ([point] + ms)))))) + rest == h + (":" + (m + (":" + (s + ([point] + (ms + rest))))))
  {
  }

  /** A line that starts with a printed clock reads back as its milliseconds, however many hours. */
  lemma ClockRoundTrip(line: string, start: nat, millis: nat, point: char, rest: string)
    requires point == ',' || point == '.'
    requires line == Clock(millis, point) + rest && start == millis
    ensures ParseTimestamp(line) == Some(start)
  {
    var h, m, s, ms := ClockIs(millis, point, rest);
    ReadLine(line, start, h, m, s, point, ms, rest);
  }

  lemma ReadLine(line: string, start: nat, h: string, m: string, s: string, point: char, ms: string, rest: string)
    requires (point == ',' || point == '.') && ClockLine(line, start, h, m, s, point, ms, rest)
    ensures ParseTimestamp(line) == Some(start)
  {
    var t := ":" + (m + (":" + (s + ([point] + (ms + rest)))));
    TailPieces(t, m, s, point, ms, rest);
    HourDigits(line, h, t);
    TailNumbers(line, h, t, m, s, point, ms);
    TailMarks(line, h, t, m, s, point, ms);
    ReadFields(line, |h|, Value(h), Value(m), Value(s), Value(ms));
    ParsesHere(line, start);
  }

  lemma ParsesHere(line: string, start: nat)
    requires TimestampHere(line) == Some(start)
    ensures ParseTimestamp(line) == Some(start)
  {
  }

  lemma ClockIsHeading(millis: nat, point: char)
    requires point == ',' || point == '.'
    ensures Heading(Clock(millis, point))
  {
    var h, m, s, ms := ClockIs(millis, point, "");
    assert Clock(millis, point) + "" == Clock(millis, point) && ms + "" == ms;
    PartsUnbroken(h, m, s, point, ms);
  }

  lemma PartsUnbroken(h: string, m: string, s: string, point: char, ms: string)
    requires AllDigits(h) && AllDigits(m) && AllDigits(s) && AllDigits(ms) && (point == ',' || point == '.')
    ensures Unbroken(h + (":" + (m + (":" + (s + ([point] + ms))))))
  {
    DigitsUnbroken(h);
    DigitsUnbroken(m);
    DigitsUnbroken(s);
    DigitsUnbroken(ms);
    UnbrokenConcat([point], ms);
    UnbrokenConcat(s, [point] + ms);
    UnbrokenConcat(":", s + ([point] + ms));
    UnbrokenConcat(m, ":" + (s + ([point] + ms)));
    UnbrokenConcat(":", m + (":" + (s + ([point] + ms))));
    UnbrokenConcat(h, ":" + (m + (":" + (s + ([point] + ms)))));
  }

  lemma ArrowIsHeading(from: string, to: string)
    requires Heading(from) && Heading(to)
    ensures Heading(Arrow(from, to))
  {
    UnbrokenConcat(" --> ", to);
    UnbrokenConcat(from, " --> " + to);
  }
}
