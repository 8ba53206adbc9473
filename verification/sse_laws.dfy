/** What the incremental SSE parser promises: cutting the stream elsewhere changes nothing, and what
    the server frames is what the parser reads. */
module SseLaws {
  import opened Common
  import opened Text
  import opened Sse

  // ---------------------------------------------------------------- chunk independence

  predicate EndsWithCr(s: string) {
    s != "" && s[|s| - 1] == '\r'
  }

  predicate BeginsWithLf(s: string) {
    s != "" && s[0] == '\n'
  }

  lemma NormalizeStep(c: char, s: string)
    ensures Normalize([c] + s) == if c == '\r' && BeginsWithLf(s) then "\n" + Normalize(s[1..]) else [c] + Normalize(s)
  {
    var text := [c] + s;
    assert text[1..] == s;
    if s != "" {
      assert text[2..] == s[1..];
    }
  }

  lemma AppendTail(c: char, s: string, b: string)
    ensures ([c] + s) + b == [c] + (s + b)
    ensures s != "" ==> (s + b)[0] == s[0] && (s + b)[1..] == s[1..] + b
  {
  }

  lemma Associates(a: string, b: string, c: string)
    ensures a + b + c == a + (b + c)
  {
  }

  /** Normalising two pieces apart loses exactly the line break that the cut divides. */
  ghost predicate CutIsSeenOnlyInALineBreak(a: string, b: string) {
    if EndsWithCr(a) && BeginsWithLf(b) then |Normalize(a + b)| < |Normalize(a)| + |Normalize(b)|
    else Normalize(a + b) == Normalize(a) + Normalize(b)
  }

  lemma CutAfterLineBreak(s: string, b: string)
    requires BeginsWithLf(s) && CutIsSeenOnlyInALineBreak(s[1..], b)
    ensures CutIsSeenOnlyInALineBreak(['\r'] + s, b)
  {
    AppendTail('\r', s, b);
    NormalizeStep('\r', s);
    NormalizeStep('\r', s + b);
    Associates("\n", Normalize(s[1..]), Normalize(b));
  }

  lemma CutAfterOneCharacter(c: char, b: string)
    ensures CutIsSeenOnlyInALineBreak([c], b)
  {
    assert [c] + "" == [c];
    NormalizeStep(c, "");
    NormalizeStep(c, b);
    if BeginsWithLf(b) {
      NormalizeStep('\n', b[1..]);
      assert b == ['\n'] + b[1..];
    }
  }

  lemma CutAfterOtherCharacter(c: char, s: string, b: string)
    requires s != "" && !(c == '\r' && BeginsWithLf(s)) && CutIsSeenOnlyInALineBreak(s, b)
    ensures CutIsSeenOnlyInALineBreak([c] + s, b)
  {
    AppendTail(c, s, b);
    NormalizeStep(c, s);
    NormalizeStep(c, s + b);
    Associates([c], Normalize(s), Normalize(b));
  }

  lemma {:induction false} NormalizeAppend(a: string, b: string)
    ensures CutIsSeenOnlyInALineBreak(a, b)
    decreases |a|
  {
    if a == "" {
      assert a + b == b && Normalize(a) + Normalize(b) == Normalize(b);
    } else {
      var c, s := a[0], a[1..];
      assert a == [c] + s;
      if c == '\r' && BeginsWithLf(s) {
        NormalizeAppend(s[1..], b);
        CutAfterLineBreak(s, b);
      } else if s == "" {
        assert a == [c];
        CutAfterOneCharacter(c, b);
      } else {
        NormalizeAppend(s, b);
        CutAfterOtherCharacter(c, s, b);
      }
    }
  }

  /** The cut in front of chunk `n` falls between a carriage return and its line feed. */
  ghost predicate DividedAt(chunks: seq<string>, n: nat)
    requires n < |chunks|
  {
    EndsWithCr(Concat(chunks[..n])) && BeginsWithLf(chunks[n])
  }

  ghost predicate CutsLineBreak(chunks: seq<string>) {
    exists n: nat :: n < |chunks| && DividedAt(chunks, n)
  }

  lemma DividedInPrefix(chunks: seq<string>, n: nat, m: nat)
    requires m < n <= |chunks|
    ensures DividedAt(chunks[..n], m) <==> DividedAt(chunks, m)
  {
    assert chunks[..n][..m] == chunks[..m];
  }

  lemma CutsOfPrefix(chunks: seq<string>, n: nat)
    requires n == |chunks| - 1
    ensures CutsLineBreak(chunks) <==> CutsLineBreak(chunks[..n]) || DividedAt(chunks, n)
  {
    forall m: nat | m < n
      ensures DividedAt(chunks[..n], m) <==> DividedAt(chunks, m)
    {
      DividedInPrefix(chunks, n, m);
    }
  }

  /** Normalising chunk by chunk is normalising the whole exactly when no cut divides a line break. */
  lemma {:induction false} NormalizeEachIsNormalize(chunks: seq<string>)
    ensures NormalizeEach(chunks) == Normalize(Concat(chunks)) <==> !CutsLineBreak(chunks)
    ensures CutsLineBreak(chunks) <==> |NormalizeEach(chunks)| > |Normalize(Concat(chunks))|
  {
    if chunks == [] {
    } else {
      var n := |chunks| - 1;
      NormalizeEachIsNormalize(chunks[..n]);
      NormalizeAppend(Concat(chunks[..n]), chunks[n]);
      CutsOfPrefix(chunks, n);
    }
  }

  /** Any two ways of cutting one text that divide no line break, CR-free texts in particular, make
      the parser dispatch the same events. */
  lemma EventsDoNotDependOnTheCuts(json: string -> Option<Json>, one: seq<string>, other: seq<string>)
    requires Concat(one) == Concat(other) && !CutsLineBreak(one) && !CutsLineBreak(other)
    ensures ParseWhole(json, NormalizeEach(one)) == ParseWhole(json, NormalizeEach(other))
  {
    NormalizeEachIsNormalize(one);
    NormalizeEachIsNormalize(other);
  }

  lemma {:induction false} NoCarriageReturnNoCut(chunks: seq<string>)
    requires '\r' !in Concat(chunks)
    ensures !CutsLineBreak(chunks)
  {
    if chunks == [] {
    } else {
      NoCarriageReturnNoCut(chunks[..|chunks| - 1]);
      CutsOfPrefix(chunks, |chunks| - 1);
    }
  }

  // ---------------------------------------------------------------- framing round trip

  /** A frame the server writes; without a name it is a bare data frame. */
  datatype Frame = Frame(name: Option<string>, payload: string)

  function EventText(name: string): string {
    "event: " + name
  }

  function DataText(payload: string): string {
    "data: " + payload
  }

  function Body(f: Frame): string {
    if f.name.Some? then EventText(f.name.value) + "\n" + DataText(f.payload) else DataText(f.payload)
  }

  function Print(f: Frame): string {
    Body(f) + BOUNDARY
  }

  function PrintAll(fs: seq<Frame>): string {
    if fs == [] then "" else Print(fs[0]) + PrintAll(fs[1..])
  }

  /** Payload and name each on one line, the payload not starting with white space. */
  ghost predicate Legible(f: Frame) {
    && '\n' !in f.payload && f.payload != "" && !ScriptSpace(f.payload[0])
    && (f.name.Some? ==> '\n' !in f.name.value)
  }

  /** Legible, and no white space around the name. */
  ghost predicate Clean(f: Frame) {
    Legible(f) && (f.name.Some? ==> Tight(f.name.value, ScriptSpace))
  }

  /** What is read from a legible frame. */
  function Heard(f: Frame): (string, string) {
    (if f.name.Some? then Trim(f.name.value, ScriptSpace) else "message", f.payload)
  }

  function HeardAll(fs: seq<Frame>): seq<(string, string)> {
    if fs == [] then [] else [Heard(fs[0])] + HeardAll(fs[1..])
  }

  function Expected(f: Frame): (string, string) {
    (if f.name.Some? then f.name.value else "message", f.payload)
  }

  function ReadEach(blocks: seq<string>): seq<(string, string)> {
    if blocks == [] then []
    else (match Read(blocks[0]) case None => [] case Some(pair) => [pair]) + ReadEach(blocks[1..])
  }

  function ExpectedAll(fs: seq<Frame>): seq<(string, string)> {
    if fs == [] then [] else [Expected(fs[0])] + ExpectedAll(fs[1..])
  }

  lemma NoNewlineNoLine(s: string)
    requires '\n' !in s
    ensures Lines(s) == [s]
  {
    forall j | 0 <= j < |s|
      ensures !OccursAt(s, "\n", j)
    {
      assert s[j] in s && s[j..j + 1][0] == s[j];
    }
  }

  lemma FirstLine(head: string, rest: string)
    requires '\n' !in head
    ensures Lines(head + "\n" + rest) == [head] + Lines(rest)
  {
    var s := head + "\n" + rest;
    assert s[|head|..|head| + 1] == "\n";
    forall j | 0 <= j < |head|
      ensures !OccursAt(s, "\n", j)
    {
      assert s[j..j + 1][0] == head[j];
    }
    FoundIsFound(s, "\n", |head|);
    assert s[..|head|] == head && s[|head| + 1..] == rest;
  }

  lemma SolidIsNotBlank(s: string)
    requires s != "" && !ScriptSpace(s[0])
    ensures Trim(s, ScriptSpace) != ""
    decreases |s|
  {
    if ScriptSpace(s[|s| - 1]) {
      assert TrimLeft(s, ScriptSpace) == s && TrimLeft(s[..|s| - 1], ScriptSpace) == s[..|s| - 1];
      SolidIsNotBlank(s[..|s| - 1]);
    }
  }

  lemma DataLine(p: string)
    ensures var line := DataText(p);
            StartsWith(line, DATA) && !StartsWith(line, EVENT) && TrimLeft(line[5..], ScriptSpace) == TrimLeft(p, ScriptSpace)
  {
    var line := DataText(p);
    assert line[..5] == DATA && line[0] == 'd' && line[5..] == " " + p && line[5..][1..] == p;
    assert EVENT[0] == 'e';
  }

  lemma SpaceInFront(n: string)
    ensures Trim(" " + n, ScriptSpace) == Trim(n, ScriptSpace)
  {
    assert (" " + n)[1..] == n;
  }

  lemma EventLine(n: string)
    ensures var line := EventText(n);
            StartsWith(line, EVENT) && !StartsWith(line, DATA) && Trim(line[6..], ScriptSpace) == Trim(n, ScriptSpace)
  {
    var line := EventText(n);
    assert line[..6] == EVENT && line[0] == 'e' && line[6..] == " " + n;
    assert DATA[0] == 'd';
    SpaceInFront(n);
  }

  lemma OneLineEach(f: Frame)
    requires Legible(f)
    ensures '\n' !in DataText(f.payload) && (f.name.Some? ==> '\n' !in EventText(f.name.value))
  {
  }

  lemma LinesOfBody(f: Frame)
    requires Legible(f)
    ensures Lines(Body(f)) == if f.name.Some? then [EventText(f.name.value)] + [DataText(f.payload)] else [DataText(f.payload)]
  {
    OneLineEach(f);
    var line := DataText(f.payload);
    NoNewlineNoLine(line);
    if f.name.Some? {
      FirstLine(EventText(f.name.value), line);
    }
  }

  lemma BodyIsNotBlank(f: Frame)
    ensures Trim(Body(f), ScriptSpace) != ""
  {
    SolidIsNotBlank(Body(f));
  }

  lemma EventThenData(head: string, line: string, n: string, p: string)
    requires StartsWith(head, EVENT) && !StartsWith(head, DATA) && Trim(head[6..], ScriptSpace) == n
    requires DataOf([line]) == [p] && Join([p]) == p && NameOf([line], n) == n
    ensures Join(DataOf([head] + [line])) == p && NameOf([head] + [line], "message") == n
  {
    assert ([head] + [line])[1..] == [line];
    assert DataOf([head] + [line]) == [] + DataOf([line]);
  }

  lemma LastDataLine(line: string, p: string)
    requires StartsWith(line, DATA) && !StartsWith(line, EVENT) && TrimLeft(line[5..], ScriptSpace) == p
    ensures DataOf([line]) == [p] && Join([p]) == p && forall name :: NameOf([line], name) == name
  {
    assert [line][1..] == [];
    assert DataOf([line]) == [p] + DataOf([]);
  }

  lemma ReadBody(f: Frame)
    requires Legible(f)
    ensures Read(Body(f)) == Some(Heard(f))
  {
    var line := DataText(f.payload);
    LinesOfBody(f);
    BodyIsNotBlank(f);
    DataLine(f.payload);
    LastDataLine(line, f.payload);
    if f.name.Some? {
      EventLine(f.name.value);
      EventThenData(EventText(f.name.value), line, Trim(f.name.value, ScriptSpace), f.payload);
    }
  }

  /** A block that holds no boundary and does not end in a newline is cut off right behind itself. */
  lemma BodyIsFirst(body: string, rest: string)
    requires body != "" && body[|body| - 1] != '\n' && forall j | 0 <= j :: !OccursAt(body, BOUNDARY, j)
    ensures Find(body + BOUNDARY + rest, BOUNDARY) == Some(|body|)
  {
    var s := body + BOUNDARY + rest;
    assert s[|body|..|body| + 2] == BOUNDARY;
    forall j | 0 <= j < |body|
      ensures !OccursAt(s, BOUNDARY, j)
    {
      if j + 2 <= |body| {
        assert s[j..j + 2] == body[j..j + 2];
        assert !OccursAt(body, BOUNDARY, j);
      } else {
        assert s[j..j + 2][0] == body[|body| - 1];
      }
    }
    FoundIsFound(s, BOUNDARY, |body|);
  }

  lemma OnlyNewlineIsAlone(s: string, at: nat)
    requires forall i | 0 <= i < |s| :: i != at ==> s[i] != '\n'
    ensures forall j | 0 <= j :: !OccursAt(s, BOUNDARY, j)
  {
    forall j | 0 <= j
      ensures !OccursAt(s, BOUNDARY, j)
    {
      if j + 2 <= |s| {
        assert s[j..j + 2][0] == s[j] && s[j..j + 2][1] == s[j + 1];
      }
    }
  }

  lemma BodyHasNoBoundary(f: Frame)
    requires Legible(f)
    ensures Body(f) != "" && Body(f)[|Body(f)| - 1] != '\n' && forall j | 0 <= j :: !OccursAt(Body(f), BOUNDARY, j)
  {
    OneLineEach(f);
    var line, body := DataText(f.payload), Body(f);
    assert line[|line| - 1] in line && body[|body| - 1] == line[|line| - 1];
    assert forall i | 0 <= i < |line| :: line[i] in line;
    if f.name.Some? {
      var head := EventText(f.name.value);
      assert forall i | 0 <= i < |head| :: head[i] in head;
      OnlyNewlineIsAlone(body, |head|);
    } else {
      OnlyNewlineIsAlone(body, |body|);
    }
  }

  /** A legible frame in front of a text is a block of its own, */
  lemma FrameIsABlock(f: Frame, text: string)
    requires Legible(f)
    ensures Blocks(Print(f) + text) == [Body(f)] + Blocks(text)
  {
    var body := Body(f);
    BodyHasNoBoundary(f);
    BodyIsFirst(body, text);
    var s := body + BOUNDARY + text;
    OneBlock(s, |body|);
    assert s[..|body|] == body && s[|body| + 2..] == text;
  }

  /** and is read by itself. */
  lemma OneFrameThen(f: Frame, text: string)
    requires Legible(f)
    ensures ReadEach(Blocks(Print(f) + text)) == [Heard(f)] + ReadEach(Blocks(text))
  {
    FrameIsABlock(f, text);
    ReadBody(f);
    assert ([Body(f)] + Blocks(text))[1..] == Blocks(text);
  }

  lemma PrintFirst(fs: seq<Frame>, text: string)
    requires fs != []
    ensures PrintAll(fs) + text == Print(fs[0]) + (PrintAll(fs[1..]) + text)
  {
    Associates(Print(fs[0]), PrintAll(fs[1..]), text);
  }

  lemma HeardFirst(fs: seq<Frame>, rest: seq<(string, string)>)
    requires fs != []
    ensures HeardAll(fs) + rest == [Heard(fs[0])] + (HeardAll(fs[1..]) + rest)
  {
  }

  lemma {:induction false} FramesThen(fs: seq<Frame>, text: string)
    requires forall f <- fs :: Legible(f)
    ensures ReadEach(Blocks(PrintAll(fs) + text)) == HeardAll(fs) + ReadEach(Blocks(text))
  {
    if fs == [] {
      assert PrintAll(fs) + text == text;
      assert HeardAll(fs) + ReadEach(Blocks(text)) == ReadEach(Blocks(text));
    } else {
      assert fs[0] in fs;
      PrintFirst(fs, text);
      OneFrameThen(fs[0], PrintAll(fs[1..]) + text);
      FramesThen(fs[1..], text);
      HeardFirst(fs, ReadEach(Blocks(text)));
    }
  }

  lemma NothingInNothing()
    ensures Blocks("") == [""] && ReadEach([""]) == []
  {
    assert [""][1..] == [];
  }

  lemma {:induction false} CleanIsHeard(fs: seq<Frame>)
    requires forall f <- fs :: Clean(f)
    ensures HeardAll(fs) == ExpectedAll(fs)
  {
    if fs == [] {
    } else {
      assert fs[0] in fs;
      if fs[0].name.Some? {
        TightIsTrimmed(fs[0].name.value, ScriptSpace);
      }
      CleanIsHeard(fs[1..]);
    }
  }

  lemma BlocksOfFrames(fs: seq<Frame>)
    requires forall f <- fs :: Clean(f)
    ensures ReadEach(Blocks(PrintAll(fs))) == ExpectedAll(fs)
  {
    FramesThen(fs, "");
    NothingInNothing();
    CleanIsHeard(fs);
    assert PrintAll(fs) + "" == PrintAll(fs);
    assert HeardAll(fs) + [] == HeardAll(fs);
  }

  function DeliverAll(json: string -> Option<Json>, seen: Seen, pairs: seq<(string, string)>): Seen
    decreases |pairs|
  {
    if pairs == [] then seen
    else DeliverAll(json, if seen.ok then Deliver(json, seen, pairs[0].0, pairs[0].1) else seen, pairs[1..])
  }

  lemma {:induction false} DispatchDeliversWhatIsRead(json: string -> Option<Json>, seen: Seen, blocks: seq<string>)
    ensures DispatchAll(json, seen, blocks) == DeliverAll(json, seen, ReadEach(blocks))
    decreases |blocks|
  {
    if blocks == [] {
    } else {
      DispatchDeliversWhatIsRead(json, Dispatch(json, seen, blocks[0]), blocks[1..]);
      var rest := ReadEach(blocks[1..]);
      match Read(blocks[0]) {
        case None =>
          assert [] + rest == rest;
        case Some(pair) =>
          assert ([pair] + rest)[1..] == rest;
      }
    }
  }

  lemma {:induction false} NormalizeLeavesPlainText(s: string)
    requires '\r' !in s
    ensures Normalize(s) == s
  {
    if |s| < 2 {
    } else {
      assert s[0] in s;
      NormalizeLeavesPlainText(s[1..]);
    }
  }

  /** What the server frames, the parser reads: for clean CR-free frames, however the stream is cut,
      exactly the printed names and payloads are delivered, in order. */
  lemma FramesRoundTrip(json: string -> Option<Json>, fs: seq<Frame>, chunks: seq<string>)
    requires forall f <- fs :: Clean(f)
    requires Concat(chunks) == PrintAll(fs) && '\r' !in PrintAll(fs)
    ensures ParseWhole(json, NormalizeEach(chunks)) == DeliverAll(json, Seen([], true), ExpectedAll(fs))
  {
    NoCarriageReturnNoCut(chunks);
    NormalizeEachIsNormalize(chunks);
    NormalizeLeavesPlainText(PrintAll(fs));
    BlocksOfFrames(fs);
    DispatchDeliversWhatIsRead(json, Seen([], true), Blocks(PrintAll(fs)));
  }

  // ---------------------------------------------------------------- which payloads survive

  /** Characters of the lines, each with its newline. */
  function Size(lines: seq<string>): int {
    if lines == [] then 0 else |lines[0]| + 1 + Size(lines[1..])
  }

  lemma {:induction false} SizeOfLines(s: string)
    ensures Size(Lines(s)) == |s| + 1
    decreases |s|
  {
    match Find(s, "\n") {
      case None =>
        assert Size([s][1..]) == 0;
      case Some(i) =>
        SizeOfLines(s[i + 1..]);
        assert ([s[..i]] + Lines(s[i + 1..]))[1..] == Lines(s[i + 1..]);
    }
  }

  lemma {:induction false} SizeOfJoin(parts: seq<string>)
    requires parts != []
    ensures |Join(parts)| + 1 == Size(parts)
  {
    if |parts| == 1 {
      assert Size(parts[1..]) == 0;
    } else {
      SizeOfJoin(parts[1..]);
    }
  }

  /** Every data line loses its field name, every other line is lost altogether. */
  lemma {:induction false} DataShrinks(lines: seq<string>)
    ensures Size(DataOf(lines)) + |lines| <= Size(lines)
  {
    if lines == [] {
    } else {
      DataShrinks(lines[1..]);
      var rest := DataOf(lines[1..]);
      if StartsWith(lines[0], DATA) {
        TrimLeftStarts(lines[0][5..], ScriptSpace);
        assert ([TrimLeft(lines[0][5..], ScriptSpace)] + rest)[1..] == rest;
      } else {
        assert [] + rest == rest;
      }
    }
  }

  lemma PayloadIsShorter(block: string)
    ensures Read(block).Some? ==> |Read(block).value.1| < |block|
  {
    if Read(block).Some? {
      SizeOfLines(block);
      DataShrinks(Lines(block));
      SizeOfJoin(DataOf(Lines(block)));
    }
  }

  /** A bare frame of a payload of several lines, or its first block, reads as something shorter. */
  lemma FirstBlockIsShorter(line: string, rest: string)
    requires StartsWith(line, "data: ") && '\n' !in line
    ensures Read(line + "\n" + rest).Some? ==> |Read(line + "\n" + rest).value.1| <= |line + "\n" + rest| - 7
  {
    var block := line + "\n" + rest;
    FirstLine(line, rest);
    SizeOfLines(rest);
    DataShrinks(Lines(rest));
    var value, more := TrimLeft(line[5..], ScriptSpace), DataOf(Lines(rest));
    assert line[5] == ' ' && line[5..][0] == ' ' && |value| <= |line| - 6 by {
      TrimLeftStarts(line[5..][1..], ScriptSpace);
    }
    assert line[..5] == DATA;
    assert ([line] + Lines(rest))[1..] == Lines(rest);
    assert DataOf(Lines(block)) == [value] + more && ([value] + more)[1..] == more;
    SizeOfJoin([value] + more);
  }

  lemma {:induction false} ReadsAreShorter(text: string, limit: nat)
    requires |text| <= limit
    ensures forall pair <- ReadEach(Blocks(text)) :: |pair.1| < limit
    decreases |text|
  {
    match Find(text, BOUNDARY) {
      case None =>
        PayloadIsShorter(text);
        assert ReadEach([text][1..]) == [];
      case Some(i) =>
        PayloadIsShorter(text[..i]);
        ReadsAreShorter(text[i + 2..], limit);
        assert Blocks(text)[1..] == Blocks(text[i + 2..]);
    }
  }

  lemma DataTextBegins(p: string, text: string)
    requires text == DataText(p) + BOUNDARY
    ensures forall j | 0 <= j < 6 :: text[j] == "data: "[j] && text[j] != '\n'
    ensures OccursAt(text, BOUNDARY, |p| + 6)
  {
  }

  lemma NewlineIsFound(p: string)
    requires '\n' in p
    ensures Find(DataText(p), "\n").Some?
  {
    var k :| 0 <= k < |p| && p[k] == '\n';
    assert DataText(p)[k + 6] == p[k];
    assert OccursAt(DataText(p), "\n", k + 6);
  }

  lemma LoneLine(line: string)
    requires Find(line, "\n").None?
    ensures Lines(line) == [line]
  {
  }

  lemma ReadsFromLines(block: string, lines: seq<string>, value: string)
    requires Lines(block) == lines && Trim(block, ScriptSpace) != ""
    requires Join(DataOf(lines)) == value && NameOf(lines, "message") == "message"
    ensures Read(block) == if value == "" then None else Some(("message", value))
  {
  }

  lemma ReadLoneLine(line: string, value: string)
    requires line != "" && !ScriptSpace(line[0]) && Find(line, "\n").None?
    requires StartsWith(line, DATA) && !StartsWith(line, EVENT) && TrimLeft(line[5..], ScriptSpace) == value
    ensures Read(line) == if value == "" then None else Some(("message", value))
  {
    SolidIsNotBlank(line);
    LastDataLine(line, value);
    LoneLine(line);
    ReadsFromLines(line, [line], value);
  }

  lemma ReadOneDataLine(x: string)
    requires Find(DataText(x), "\n").None?
    ensures Read(DataText(x)) == if TrimLeft(x, ScriptSpace) == "" then None else Some(("message", TrimLeft(x, ScriptSpace)))
  {
    DataLine(x);
    ReadLoneLine(DataText(x), TrimLeft(x, ScriptSpace));
  }

  /** One line before the boundary: it is the part of the payload before its first newline. */
  lemma BrokenIntoOneLine(p: string, x: string)
    requires '\n' in p && x <= p && Find(DataText(x), "\n").None?
    ensures Read(DataText(x)).Some? ==> |Read(DataText(x)).value.1| < |p|
  {
    if x == p {
      NewlineIsFound(p);
    }
    ReadOneDataLine(x);
    TrimLeftStarts(x, ScriptSpace);
  }

  /** Several lines before the boundary: the newline between the first two is not counted. */
  lemma BrokenIntoLines(block: string, k: nat)
    requires |block| >= 6 && block[..6] == "data: " && Find(block, "\n") == Some(k)
    ensures Read(block).Some? ==> |Read(block).value.1| <= |block| - 7
  {
    assert block[k..k + 1][0] == block[k];
    var line, rest := block[..k], block[k + 1..];
    assert block == line + "\n" + rest;
    assert forall j | 0 <= j < 6 :: block[j] == block[..6][j];
    assert k >= 6 && line[..6] == block[..6];
    forall j | 0 <= j < k ensures line[j] != '\n' {
      assert !OccursAt(block, "\n", j) && block[j..j + 1][0] == line[j];
    }
    FirstBlockIsShorter(line, rest);
  }

  /** The first block of a bare frame whose payload holds a newline. */
  lemma BrokenFirstBlock(p: string, i: nat)
    requires '\n' in p && Find(DataText(p) + BOUNDARY, BOUNDARY) == Some(i)
    ensures 6 <= i <= |p| + 6
    ensures var block := (DataText(p) + BOUNDARY)[..i]; Read(block).Some? ==> |Read(block).value.1| < |p|
  {
    var text := DataText(p) + BOUNDARY;
    DataTextBegins(p, text);
    assert text[i..i + 2][0] == text[i];
    var block := text[..i];
    match Find(block, "\n") {
      case None =>
        assert block == DataText(p[..i - 6]);
        BrokenIntoOneLine(p, p[..i - 6]);
      case Some(k) =>
        assert block[..6] == "data: ";
        BrokenIntoLines(block, k);
    }
  }

  lemma PlainBlocks(p: string)
    requires '\n' !in p
    ensures Blocks(DataText(p) + BOUNDARY) == [DataText(p)] + [""] && Find(DataText(p), "\n").None?
  {
    var body := DataText(p);
    assert forall i | 0 <= i < |body| :: body[i] == if i < 6 then "data: "[i] else p[i - 6];
    assert forall i | 0 <= i < |p| :: p[i] in p;
    OnlyNewlineIsAlone(body, |body|);
    BodyIsFirst(body, "");
    assert body + BOUNDARY + "" == body + BOUNDARY;
    OneBlock(body + BOUNDARY, |body|);
    assert (body + BOUNDARY)[..|body|] == body && (body + BOUNDARY)[|body| + 2..] == "";
    forall j | 0 <= j < |body| ensures !OccursAt(body, "\n", j) {
      assert body[j..j + 1][0] == body[j];
    }
  }

  lemma BlankLeadIsTrimmed(p: string)
    requires '\n' !in p && (p == "" || ScriptSpace(p[0]))
    ensures forall pair <- ReadEach(Blocks(DataText(p) + BOUNDARY)) :: pair.1 != p
  {
    var body := DataText(p);
    PlainBlocks(p);
    ReadOneDataLine(p);
    if p != "" {
      TrimLeftStarts(p[1..], ScriptSpace);
    }
    var t := TrimLeft(p, ScriptSpace);
    assert ([body] + [""])[1..] == [""] && [""][1..] == [];
    assert Read("").None? && ReadEach([""]) == [] + ReadEach([]);
    assert ReadEach([body] + [""]) == (if t == "" then [] else [("message", t)]) + [];
    assert |t| < |p| || t == "";
  }

  /** No payload that is not clean is read from its bare frame. */
  lemma UncleanPayloadIsNotRead(p: string)
    requires !Clean(Frame(None, p))
    ensures forall pair <- ReadEach(Blocks(DataText(p) + BOUNDARY)) :: pair.1 != p
  {
    if '\n' in p {
      var text := DataText(p) + BOUNDARY;
      assert OccursAt(text, BOUNDARY, |p| + 6);
      var i := Find(text, BOUNDARY).value;
      BrokenFirstBlock(p, i);
      OneBlock(text, i);
      assert ([text[..i]] + Blocks(text[i + 2..]))[1..] == Blocks(text[i + 2..]);
      ReadsAreShorter(text[i + 2..], |p|);
    } else {
      BlankLeadIsTrimmed(p);
    }
  }

  /** A bare data frame is read back as it was printed exactly when its payload is on one line, not
      empty, and does not start with white space. */
  lemma PlainFrameSurvivesIffClean(p: string)
    ensures ReadEach(Blocks(Print(Frame(None, p)))) == [("message", p)] <==> Clean(Frame(None, p))
  {
    var f, text := Frame(None, p), DataText(p) + BOUNDARY;
    assert Print(f) == text;
    if Clean(f) {
      BlocksOfFrames([f]);
      assert PrintAll([f]) == text + PrintAll([f][1..]) == text;
      assert [f][1..] == [] && ExpectedAll([f]) == [Expected(f)];
    } else {
      UncleanPayloadIsNotRead(p);
      assert [("message", p)][0] in [("message", p)];
    }
  }

  // ---------------------------------------------------------------- frames with a name

  lemma NewlineOccurs(s: string, j: nat)
    requires j < |s| && s[j] == '\n'
    ensures OccursAt(s, "\n", j)
  {
  }

  lemma NoNewlineBefore(s: string, at: nat)
    requires at <= |s| && forall j | 0 <= j < at :: !OccursAt(s, "\n", j)
    ensures '\n' !in s[..at]
  {
    forall j | 0 <= j < at
      ensures s[j] != '\n'
    {
      if s[j] == '\n' {
        NewlineOccurs(s, j);
      }
    }
  }

  lemma {:induction false} LinesHaveNoNewline(s: string)
    ensures forall line <- Lines(s) :: '\n' !in line
    decreases |s|
  {
    match Find(s, "\n") {
      case None =>
        NoNewlineBefore(s, |s|);
        assert s[..|s|] == s;
      case Some(i) =>
        NoNewlineBefore(s, i);
        LinesHaveNoNewline(s[i + 1..]);
    }
  }

  lemma {:induction false} TrimLeftTakesFrom(s: string, space: char -> bool, c: char)
    requires c !in s
    ensures c !in TrimLeft(s, space)
  {
    if s == "" {
    } else {
      TrimLeftTakesFrom(s[1..], space, c);
    }
  }

  lemma {:induction false} TrimRightTakesFrom(s: string, space: char -> bool, c: char)
    requires c !in s
    ensures c !in TrimRight(s, space)
  {
    if s == "" {
    } else {
      TrimRightTakesFrom(s[..|s| - 1], space, c);
    }
  }

  lemma {:induction false} NameHasNoNewline(lines: seq<string>, name: string)
    requires '\n' !in name && forall line <- lines :: '\n' !in line
    ensures '\n' !in NameOf(lines, name)
    decreases |lines|
  {
    if lines == [] {
    } else {
      assert lines[0] in lines;
      if StartsWith(lines[0], EVENT) {
        TrimLeftTakesFrom(lines[0][6..], ScriptSpace, '\n');
        TrimRightTakesFrom(TrimLeft(lines[0][6..], ScriptSpace), ScriptSpace, '\n');
        NameHasNoNewline(lines[1..], Trim(lines[0][6..], ScriptSpace));
      } else {
        NameHasNoNewline(lines[1..], name);
      }
    }
  }

  lemma {:induction false} NamesHaveNoNewline(blocks: seq<string>)
    ensures forall pair <- ReadEach(blocks) :: '\n' !in pair.0
  {
    if blocks == [] {
    } else {
      NamesHaveNoNewline(blocks[1..]);
      LinesHaveNoNewline(blocks[0]);
      NameHasNoNewline(Lines(blocks[0]), "message");
    }
  }

  lemma BoundaryIsTwoNewlines(s: string, j: int)
    ensures OccursAt(s, BOUNDARY, j) <==> 0 <= j && j + 2 <= |s| && s[j] == '\n' && s[j + 1] == '\n'
  {
    if 0 <= j && j + 2 <= |s| {
      assert s[j..j + 2] == [s[j], s[j + 1]];
    }
  }

  /** A line in front of a text that does not begin with a newline moves its boundaries. */
  lemma BoundariesMove(head: string, text: string, j: int)
    requires '\n' !in head && text != "" && text[0] != '\n' && 0 <= j
    ensures OccursAt(head + "\n" + text, BOUNDARY, j) <==> j > |head| && OccursAt(text, BOUNDARY, j - |head| - 1)
  {
    var s, n := head + "\n" + text, |head|;
    assert j < n ==> s[j] == head[j];
    assert s[n] == '\n' && s[n + 1] == text[0];
    assert j > n && j < |s| ==> s[j] == text[j - n - 1];
    assert j > n && j + 1 < |s| ==> s[j + 1] == text[j - n];
    BoundaryIsTwoNewlines(s, j);
    BoundaryIsTwoNewlines(text, j - n - 1);
  }

  lemma FirstBoundaryMoves(head: string, text: string, i: nat)
    requires '\n' !in head && text != "" && text[0] != '\n' && Find(text, BOUNDARY) == Some(i)
    ensures Find(head + "\n" + text, BOUNDARY) == Some(|head| + 1 + i)
  {
    var s, at := head + "\n" + text, |head| + 1 + i;
    BoundariesMove(head, text, at);
    forall j | 0 <= j < at
      ensures !OccursAt(s, BOUNDARY, j)
    {
      BoundariesMove(head, text, j);
    }
    FoundIsFound(s, BOUNDARY, at);
  }

  lemma NamedBlocks(head: string, text: string, i: nat)
    requires '\n' !in head && text != "" && text[0] != '\n' && Find(text, BOUNDARY) == Some(i)
    ensures Blocks(text) == [text[..i]] + Blocks(text[i + 2..])
    ensures Blocks(head + "\n" + text) == [head + "\n" + text[..i]] + Blocks(text[i + 2..])
  {
    var s, at := head + "\n" + text, |head| + 1 + i;
    FirstBoundaryMoves(head, text, i);
    OneBlock(text, i);
    OneBlock(s, at);
    assert s[..at] == head + "\n" + text[..i] && s[at + 2..] == text[i + 2..];
  }

  lemma EventHead(name: string)
    requires '\n' !in name
    ensures var head := EventText(name);
            && StartsWith(head, EVENT) && !StartsWith(head, DATA) && '\n' !in head && !ScriptSpace(head[0]) && |head| >= 6
  {
    var head := EventText(name);
    assert head[..6] == EVENT && head[0] == 'e' && DATA[0] == 'd';
  }

  /** An event line in front of a block changes the name, not the payload. */
  lemma EventLineKeepsPayload(head: string, block: string)
    requires '\n' !in head && head != "" && !ScriptSpace(head[0]) && !StartsWith(head, DATA)
    requires block != "" && !ScriptSpace(block[0])
    ensures var named := Read(head + "\n" + block);
            && (named.Some? <==> Read(block).Some?)
            && (named.Some? ==> named.value.1 == Read(block).value.1)
  {
    FirstLine(head, block);
    var lines := Lines(block);
    assert ([head] + lines)[1..] == lines && [] + DataOf(lines) == DataOf(lines);
    assert DataOf([head] + lines) == DataOf(lines);
    SolidIsNotBlank(head + "\n" + block);
    SolidIsNotBlank(block);
  }

  lemma ReadFirst(first: string, rest: seq<string>)
    ensures ReadEach([first] + rest) == (if Read(first).Some? then [Read(first).value] else []) + ReadEach(rest)
  {
    assert ([first] + rest)[1..] == rest;
  }

  lemma SamePayloads(first: string, named: string, rest: seq<string>, p: string)
    requires Read(named).Some? <==> Read(first).Some?
    requires Read(named).Some? ==> Read(named).value.1 == Read(first).value.1
    requires forall pair <- ReadEach([first] + rest) :: pair.1 != p
    ensures forall pair <- ReadEach([named] + rest) :: pair.1 != p
  {
    ReadFirst(first, rest);
    ReadFirst(named, rest);
    assert Read(first).Some? ==> Read(first).value in ReadEach([first] + rest);
    assert forall pair <- ReadEach(rest) :: pair in ReadEach([first] + rest);
  }

  lemma BareBoundary(p: string) returns (i: nat)
    ensures var bare := DataText(p) + BOUNDARY;
            && Find(bare, BOUNDARY) == Some(i) && 6 <= i <= |bare| && bare[0] == 'd' && bare[..i][0] == 'd'
  {
    var bare := DataText(p) + BOUNDARY;
    DataTextBegins(p, bare);
    i := Find(bare, BOUNDARY).value;
    BoundaryIsTwoNewlines(bare, i);
  }

  /** The named frame of an unclean payload is not read back with that payload either. */
  lemma NamedUncleanPayloadIsNotRead(name: string, p: string)
    requires '\n' !in name && !Clean(Frame(None, p))
    ensures forall pair <- ReadEach(Blocks(Print(Frame(Some(name), p)))) :: pair.1 != p
  {
    var head, bare := EventText(name), DataText(p) + BOUNDARY;
    assert Print(Frame(Some(name), p)) == head + "\n" + bare;
    var i := BareBoundary(p);
    EventHead(name);
    NamedBlocks(head, bare, i);
    UncleanPayloadIsNotRead(p);
    EventLineKeepsPayload(head, bare[..i]);
    SamePayloads(bare[..i], head + "\n" + bare[..i], Blocks(bare[i + 2..]), p);
  }

  /** A name with white space around is read back trimmed. */
  lemma LooseNameIsTrimmed(name: string, p: string)
    requires '\n' !in name && !Tight(name, ScriptSpace) && Clean(Frame(None, p))
    ensures forall pair <- ReadEach(Blocks(Print(Frame(Some(name), p)))) :: pair.0 != name
  {
    var f := Frame(Some(name), p);
    OneFrameThen(f, "");
    NothingInNothing();
    assert Print(f) + "" == Print(f);
    TrimIsTight(name, ScriptSpace);
  }

  /** A frame, named or bare, is read back as it was printed if and only if it is clean: payload on one
      line, not empty and not starting with white space; name on one line without white space around. */
  lemma FrameSurvivesIffClean(f: Frame)
    ensures ReadEach(Blocks(Print(f))) == [Expected(f)] <==> Clean(f)
  {
    var read := ReadEach(Blocks(Print(f)));
    assert Expected(f) in [Expected(f)];
    if Clean(f) {
      BlocksOfFrames([f]);
      assert PrintAll([f]) == Print(f) + PrintAll([f][1..]) == Print(f);
      assert [f][1..] == [] && ExpectedAll([f]) == [Expected(f)];
    } else if f.name.None? {
      UncleanPayloadIsNotRead(f.payload);
    } else if '\n' in f.name.value {
      NamesHaveNoNewline(Blocks(Print(f)));
    } else if !Clean(Frame(None, f.payload)) {
      NamedUncleanPayloadIsNotRead(f.name.value, f.payload);
    } else {
      LooseNameIsTrimmed(f.name.value, f.payload);
    }
  }
}
