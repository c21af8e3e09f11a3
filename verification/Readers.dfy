/** The incremental transcript reader (watcher/watcher.go): a file is read from where the last read stopped,
    and only complete lines are taken. */
module Readers {

  newtype Byte = x: int | 0 <= x < 256

  type Bytes = seq<Byte>

  const NEWLINE: Byte := 10

  const RETURN: Byte := 13

  // ---- The lines of a whole file ----

  function FirstNewline(s: Bytes): (n: nat)
    ensures n <= |s| && (n < |s| ==> s[n] == NEWLINE) && forall i :: 0 <= i < n ==> s[i] != NEWLINE
  {
    if s == [] || s[0] == NEWLINE then 0 else 1 + FirstNewline(s[1..])
  }

  function TrimSuffix(s: Bytes, b: Byte): Bytes {
    if s != [] && s[|s| - 1] == b then s[..|s| - 1] else s
  }

  /** A line without its carriage return, unless nothing is left of it. */
  function NonEmpty(line: Bytes): seq<Bytes> {
    var text := TrimSuffix(line, RETURN);
    if text == [] then [] else [text]
  }

  /** The non-empty complete lines of a content. */
  function Lines(s: Bytes): seq<Bytes>
    decreases |s|
  {
    var n := FirstNewline(s);
    if n == |s| then [] else NonEmpty(s[..n]) + Lines(s[n + 1..])
  }

  /** Where its last complete line ends. */
  function CompleteLength(s: Bytes): (n: nat)
    ensures n <= |s|
    decreases |s|
  {
    var n := FirstNewline(s);
    if n == |s| then 0 else n + 1 + CompleteLength(s[n + 1..])
  }

  predicate EndsLine(s: Bytes) { s == [] || s[|s| - 1] == NEWLINE }

  lemma FirstNewlineIs(s: Bytes, n: nat)
    requires n < |s| && s[n] == NEWLINE && forall i :: 0 <= i < n ==> s[i] != NEWLINE
    ensures FirstNewline(s) == n
  {
  }

  lemma OneMoreLine(line: Bytes, b: Bytes)
    requires line != [] && FirstNewline(line) == |line| - 1
    ensures Lines(line + b) == NonEmpty(line[..|line| - 1]) + Lines(b)
    ensures CompleteLength(line + b) == |line| + CompleteLength(b)
  {
    var n := |line| - 1;
    FirstNewlineIs(line + b, n);
    assert (line + b)[..n] == line[..n] && (line + b)[n + 1..] == b;
  }

  lemma {:induction false} NoNewline(s: Bytes)
    requires NEWLINE !in s
    ensures Lines(s) == [] && CompleteLength(s) == 0
  {
    assert FirstNewline(s) == |s|;
  }

  /** Contents that end a line can be read apart from what follows. */
  lemma {:induction false} LinesSplit(a: Bytes, b: Bytes)
    requires EndsLine(a)
    ensures Lines(a + b) == Lines(a) + Lines(b) && CompleteLength(a + b) == |a| + CompleteLength(b)
    decreases |a|
  {
    hide Lines, CompleteLength, FirstNewline;
    if a == [] {
      NoNewline(a);
      assert a + b == b;
    } else {
      assert a[|a| - 1] == NEWLINE;
      var n := FirstNewline(a);
      var line, rest := a[..n + 1], a[n + 1..];
      FirstNewlineIs(line, n);
      assert a == line + rest && a + b == line + (rest + b);
      OneMoreLine(line, rest);
      OneMoreLine(line, rest + b);
      LinesSplit(rest, b);
    }
  }

  /** Up to its last newline a content holds all its complete lines. */
  lemma {:induction false} CompletePart(s: Bytes)
    ensures EndsLine(s[..CompleteLength(s)]) && Lines(s[..CompleteLength(s)]) == Lines(s)
    decreases |s|
  {
    hide Lines, CompleteLength, FirstNewline;
    var n := FirstNewline(s);
    if n == |s| {
      NoNewline(s);
      NoNewline([]);
    } else {
      var line, rest := s[..n + 1], s[n + 1..];
      var m := CompleteLength(rest);
      CompletePart(rest);
      FirstNewlineIs(line, n);
      assert s == line + rest;
      OneMoreLine(line, rest);
      assert s[..n + 1 + m] == line + rest[..m];
      OneMoreLine(line, rest[..m]);
    }
  }

  /** A text without line ends, written with a newline or with a carriage return and a newline, is read as itself; an empty
      line is not read at all. */
  lemma TextIsALine(before: Bytes, text: Bytes)
    requires EndsLine(before) && NEWLINE !in text && (text != [] ==> text[|text| - 1] != RETURN)
    ensures Lines(before + text + [10]) == Lines(before) + if text == [] then [] else [text]
    ensures Lines(before + text + [13, 10]) == Lines(before) + if text == [] then [] else [text]
  {
    hide Lines, EndsLine, NonEmpty;
    LineAfter(before, text);
    LineAfter(before, text + [13]);
    assert before + (text + [13]) + [10] == before + text + [13, 10];
    TextOf(text);
  }

  lemma LineAfter(before: Bytes, line: Bytes)
    requires EndsLine(before) && NEWLINE !in line
    ensures Lines(before + line + [10]) == Lines(before) + NonEmpty(line)
  {
    hide Lines, EndsLine, NonEmpty;
    assert before + line + [10] == before + (line + [10]);
    LinesSplit(before, line + [10]);
    OneLine(line + [10], line);
  }

  lemma TextOf(text: Bytes)
    requires text != [] ==> text[|text| - 1] != RETURN
    ensures NonEmpty(text) == NonEmpty(text + [13]) == if text == [] then [] else [text]
  {
  }

  lemma OneLine(line: Bytes, text: Bytes)
    requires line == text + [NEWLINE] && NEWLINE !in text
    ensures Lines(line) == NonEmpty(text)
  {
    hide Lines, NonEmpty;
    FirstNewlineIs(line, |text|);
    assert line + [] == line && line[..|text|] == text;
    OneMoreLine(line, []);
    NoNewline([]);
  }

  // ---- One read ----

  /** bytes.SplitAfter at newlines. */
  function SplitAfter(s: Bytes): (parts: seq<Bytes>)
    ensures parts != []
    decreases |s|
  {
    var n := FirstNewline(s);
    if n == |s| then [s] else [s[..n + 1]] + SplitAfter(s[n + 1..])
  }

  function Joined(parts: seq<Bytes>): Bytes {
    if parts == [] then [] else parts[0] + Joined(parts[1..])
  }

  lemma FirstLine(s: Bytes)
    requires FirstNewline(s) < |s|
    ensures FirstNewline(s[..FirstNewline(s) + 1]) == FirstNewline(s)
  {
    hide FirstNewline;
    var n := FirstNewline(s);
    var line := s[..n + 1];
    assert line[n] == NEWLINE && forall i :: 0 <= i < n ==> line[i] == s[i];
    FirstNewlineIs(line, n);
  }

  lemma SplitAfterStep(s: Bytes)
    ensures var n := FirstNewline(s);
            SplitAfter(s) == (if n == |s| then [s] else [s[..n + 1]] + SplitAfter(s[n + 1..]))
  {
    hide FirstNewline;
  }

  predicate IsLine(part: Bytes) { part != [] && FirstNewline(part) == |part| - 1 }

  /** All parts but the last are lines; the last has no newline. */
  lemma {:induction false} SplitAfterParts(s: Bytes)
    ensures Joined(SplitAfter(s)) == s
    ensures forall i :: 0 <= i < |SplitAfter(s)| - 1 ==> IsLine(SplitAfter(s)[i])
    ensures NEWLINE !in SplitAfter(s)[|SplitAfter(s)| - 1]
    decreases |s|
  {
    hide SplitAfter, FirstNewline;
    var n := FirstNewline(s);
    SplitAfterStep(s);
    if n == |s| {
      assert Joined([s]) == s + Joined([]);
    } else {
      FirstLine(s);
      assert s == s[..n + 1] + s[n + 1..];
      SplitAfterParts(s[n + 1..]);
      assert SplitAfter(s)[1..] == SplitAfter(s[n + 1..]);
    }
  }

  /** The loop of readNewLines over the new bytes: the lines it takes, and how many bytes they are. */
  method TakeLines(newLines: Bytes) returns (lines: seq<Bytes>, consumed: nat)
    ensures lines == Lines(newLines) && consumed == CompleteLength(newLines)
  {
    hide Lines, CompleteLength, FirstNewline, Joined, SplitAfter;
    var parts := SplitAfter(newLines);
    SplitAfterParts(newLines);
    lines, consumed := [], 0;
    assert parts[0..] == parts;
    for i := 0 to |parts|
      invariant Lines(newLines) == lines + Lines(Joined(parts[i..]))
      invariant CompleteLength(newLines) == consumed + CompleteLength(Joined(parts[i..]))
    {
      var part := parts[i];
      JoinedFrom(parts, i);
      if |part| == 0 {
        assert part + Joined(parts[i + 1..]) == Joined(parts[i + 1..]);
        continue;
      }
      if part[|part| - 1] != NEWLINE {
        LastPart(parts, i);
        break;
      }
      OneMoreLine(part, Joined(parts[i + 1..]));
      consumed := consumed + |part|;
      var line := TrimSuffix(TrimSuffix(part, NEWLINE), RETURN);
      if |line| > 0 {
        lines := lines + [line];
      }
    }
    NothingJoined(parts);
    NoNewline([]);
  }

  lemma NothingJoined(parts: seq<Bytes>)
    ensures Joined(parts[|parts|..]) == []
  {
  }

  lemma JoinedFrom(parts: seq<Bytes>, i: nat)
    requires i < |parts|
    ensures Joined(parts[i..]) == parts[i] + Joined(parts[i + 1..])
  {
    assert parts[i..][1..] == parts[i + 1..];
  }

  lemma LastPart(parts: seq<Bytes>, i: nat)
    requires i < |parts| && parts[i] != [] && parts[i][|parts[i]| - 1] != NEWLINE
    requires forall k :: 0 <= k < |parts| - 1 ==> IsLine(parts[k])
    requires NEWLINE !in parts[|parts| - 1]
    ensures i == |parts| - 1 && Lines(Joined(parts[i..])) == [] && CompleteLength(Joined(parts[i..])) == 0
  {
    assert parts[i..] == [parts[i]];
    assert Joined([parts[i]]) == parts[i] + Joined([]) == parts[i];
    NoNewline(parts[i]);
  }

  // ---- Any number of reads ----

  /** What has been read of a file: the offset, and the lines handed on. */
  datatype Progress = Progress(offset: nat, lines: seq<Bytes>)

  /** Each content is the file at the time of one read. */
  ghost predicate Growing(contents: seq<Bytes>) {
    forall i, j :: 0 <= i < j < |contents| ==> contents[i] <= contents[j]
  }

  function ReadEach(contents: seq<Bytes>): Progress
    decreases |contents|
  {
    if contents == [] then Progress(0, [])
    else
      var before, content := ReadEach(contents[..|contents| - 1]), contents[|contents| - 1];
      if before.offset > |content| then before
      else
        var newLines := content[before.offset..];
        Progress(before.offset + CompleteLength(newLines), before.lines + Lines(newLines))
  }

  /** Whatever becomes of the file, a read takes back nothing; of a file shorter than what was read, it takes nothing. */
  lemma ReadsOnlyAdd(contents: seq<Bytes>, content: Bytes)
    ensures var (before, after) := (ReadEach(contents), ReadEach(contents + [content]));
            && before.lines <= after.lines && before.offset <= after.offset
            && (|content| < before.offset ==> after == before)
  {
    hide Lines, CompleteLength;
    assert (contents + [content])[..|contents|] == contents;
  }

  /** However a growing file is read, the lines handed on are those of its last content, in order and once
      each, and the offset is where the last complete line ends. */
  lemma {:induction false} IncrementalIsBatch(contents: seq<Bytes>)
    requires contents != [] && Growing(contents)
    ensures var last := contents[|contents| - 1];
            ReadEach(contents) == Progress(CompleteLength(last), Lines(last)) && EndsLine(last[..CompleteLength(last)])
  {
    hide Lines, CompleteLength, EndsLine;
    var front, last := contents[..|contents| - 1], contents[|contents| - 1];
    CompletePart(last);
    if front == [] {
      assert last[0..] == last;
    } else {
      IncrementalIsBatch(front);
      var content := front[|front| - 1];
      assert content <= last;
      var n := CompleteLength(content);
      CompletePart(content);
      assert content[..n] == last[..n];
      LinesSplit(last[..n], last[n..]);
      assert last == last[..n] + last[n..];
    }
  }
}
