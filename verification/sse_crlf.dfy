/** Frames whose lines end in CRLF: which cuts between network chunks change the dispatched events. */
module SseCrlf {
  import opened Common
  import opened Text
  import opened Sse
  import opened SseLaws

  const CRLF := "\r\n"

  // ---------------------------------------------------------------- normalising around cuts

  /** The positions at which a chunk ends. */
  function Cuts(chunks: seq<string>): set<nat> {
    if chunks == [] then {0} else Cuts(chunks[..|chunks| - 1]) + {|Concat(chunks)|}
  }

  /** The text with every CRLF normalised that no cut divides; it starts at position `at`. */
  function Keep(s: string, cuts: set<nat>, at: nat): string {
    if |s| < 2 then s
    else if s[0] == '\r' && s[1] == '\n' && at + 1 !in cuts then "\n" + Keep(s[2..], cuts, at + 2)
    else [s[0]] + Keep(s[1..], cuts, at + 1)
  }

  lemma KeepStep(c: char, s: string, cuts: set<nat>, at: nat)
    ensures Keep([c] + s, cuts, at) ==
              if c == '\r' && BeginsWithLf(s) && at + 1 !in cuts then "\n" + Keep(s[1..], cuts, at + 2)
              else [c] + Keep(s, cuts, at + 1)
  {
    var text := [c] + s;
    assert text[1..] == s;
    if s != "" {
      assert text[2..] == s[1..];
    }
  }

  /** Cut at the end of `a`, the two pieces are normalised apart. */
  ghost predicate Parts(a: string, b: string, cuts: set<nat>, at: nat) {
    Keep(a + b, cuts, at) == Keep(a, cuts, at) + Keep(b, cuts, at + |a|)
  }

  lemma PartsAfterBreak(s: string, b: string, cuts: set<nat>, at: nat)
    requires BeginsWithLf(s) && at + 1 !in cuts && Parts(s[1..], b, cuts, at + 2)
    ensures Parts(['\r'] + s, b, cuts, at)
  {
    AppendTail('\r', s, b);
    KeepStep('\r', s, cuts, at);
    KeepStep('\r', s + b, cuts, at);
    Associates("\n", Keep(s[1..], cuts, at + 2), Keep(b, cuts, at + 1 + |s|));
  }

  lemma PartsAfterOther(c: char, s: string, b: string, cuts: set<nat>, at: nat)
    requires !(c == '\r' && BeginsWithLf(s) && at + 1 !in cuts) && (s == "" ==> at + 1 in cuts)
    requires Parts(s, b, cuts, at + 1)
    ensures Parts([c] + s, b, cuts, at)
  {
    AppendTail(c, s, b);
    KeepStep(c, s, cuts, at);
    KeepStep(c, s + b, cuts, at);
    Associates([c], Keep(s, cuts, at + 1), Keep(b, cuts, at + 1 + |s|));
  }

  lemma {:induction false} KeepAppend(a: string, b: string, cuts: set<nat>, at: nat)
    requires at + |a| in cuts
    ensures Parts(a, b, cuts, at)
    decreases |a|
  {
    if a == "" {
      assert a + b == b;
    } else {
      var c, s := a[0], a[1..];
      assert a == [c] + s;
      if c == '\r' && BeginsWithLf(s) && at + 1 !in cuts {
        KeepAppend(s[1..], b, cuts, at + 2);
        PartsAfterBreak(s, b, cuts, at);
      } else {
        KeepAppend(s, b, cuts, at + 1);
        PartsAfterOther(c, s, b, cuts, at);
      }
    }
  }

  lemma {:induction false} KeepSame(s: string, one: set<nat>, other: set<nat>, at: nat)
    requires forall c: nat | at < c < at + |s| :: c in one <==> c in other
    ensures Keep(s, one, at) == Keep(s, other, at)
    decreases |s|
  {
    if |s| < 2 {
    } else {
      KeepSame(s[2..], one, other, at + 2);
      KeepSame(s[1..], one, other, at + 1);
    }
  }

  lemma {:induction false} KeepWhole(s: string, at: nat)
    ensures Keep(s, {}, at) == Normalize(s)
    decreases |s|
  {
    if |s| < 2 {
    } else {
      KeepWhole(s[2..], at + 2);
      KeepWhole(s[1..], at + 1);
    }
  }

  lemma {:induction false} CutsWithin(chunks: seq<string>)
    ensures |Concat(chunks)| in Cuts(chunks) && forall c <- Cuts(chunks) :: c <= |Concat(chunks)|
  {
    if chunks == [] {
    } else {
      CutsWithin(chunks[..|chunks| - 1]);
    }
  }

  /** Chunk by chunk, exactly the line breaks survive that a cut divides. */
  lemma {:induction false} NormalizeEachKeeps(chunks: seq<string>)
    ensures NormalizeEach(chunks) == Keep(Concat(chunks), Cuts(chunks), 0)
  {
    if chunks == [] {
    } else {
      var init, last := chunks[..|chunks| - 1], chunks[|chunks| - 1];
      NormalizeEachKeeps(init);
      CutsWithin(init);
      KeepAppend(Concat(init), last, Cuts(chunks), 0);
      KeepSame(Concat(init), Cuts(init), Cuts(chunks), 0);
      KeepSame(last, {}, Cuts(chunks), |Concat(init)|);
      KeepWhole(last, |Concat(init)|);
    }
  }

  // ---------------------------------------------------------------- CRLF frames

  function Eol(divided: bool): string {
    if divided then CRLF else "\n"
  }

  lemma KeepOne(c: char, s: string, rest: string, cuts: set<nat>, at: nat)
    requires c != '\r' && Keep(s + rest, cuts, at + 1) == s + Keep(rest, cuts, at + 1 + |s|)
    ensures Keep([c] + s + rest, cuts, at) == [c] + s + Keep(rest, cuts, at + 1 + |s|)
  {
    Associates([c], s, rest);
    KeepStep(c, s + rest, cuts, at);
    Associates([c], s, Keep(rest, cuts, at + 1 + |s|));
  }

  lemma {:induction false} KeepPlain(s: string, rest: string, cuts: set<nat>, at: nat)
    requires '\r' !in s
    ensures Keep(s + rest, cuts, at) == s + Keep(rest, cuts, at + |s|)
    decreases |s|
  {
    if s == "" {
      assert s + rest == rest;
    } else {
      assert s[0] in s;
      KeepPlain(s[1..], rest, cuts, at + 1);
      KeepOne(s[0], s[1..], rest, cuts, at);
      assert [s[0]] + s[1..] == s;
    }
  }

  lemma KeepBreak(rest: string, cuts: set<nat>, at: nat)
    ensures Keep(CRLF + rest, cuts, at) == Eol(at + 1 in cuts) + Keep(rest, cuts, at + 2)
  {
    assert CRLF + rest == ['\r'] + ("\n" + rest) && ("\n" + rest)[1..] == rest;
    KeepStep('\r', "\n" + rest, cuts, at);
    KeepStep('\n', rest, cuts, at + 1);
    assert "\n" + rest == ['\n'] + rest;
    assert ['\r'] + (['\n'] + Keep(rest, cuts, at + 2)) == CRLF + Keep(rest, cuts, at + 2);
  }

  function HeadCrlf(f: Frame): string {
    if f.name.Some? then EventText(f.name.value) + CRLF else ""
  }

  /** The frame with CRLF for every newline. */
  function PrintCrlf(f: Frame): string {
    HeadCrlf(f) + (DataText(f.payload) + (CRLF + CRLF))
  }

  function PrintCrlfAll(fs: seq<Frame>): string {
    if fs == [] then "" else PrintCrlf(fs[0]) + PrintCrlfAll(fs[1..])
  }

  /** Which line breaks of a frame a cut divides: of its event line, its data line, and the blank line. */
  datatype Mark = Mark(event: bool, data: bool, blank: bool)

  function MarkOf(f: Frame, cuts: set<nat>, at: nat): Mark {
    var data := at + |HeadCrlf(f)| + |DataText(f.payload)|;
    Mark(f.name.Some? && at + |HeadCrlf(f)| - 1 in cuts, data + 1 in cuts, data + 3 in cuts)
  }

  function Marks(fs: seq<Frame>, cuts: set<nat>, at: nat): (marks: seq<Mark>)
    ensures |marks| == |fs|
  {
    if fs == [] then [] else [MarkOf(fs[0], cuts, at)] + Marks(fs[1..], cuts, at + |PrintCrlf(fs[0])|)
  }

  function HeadMarked(f: Frame, m: Mark): string {
    if f.name.Some? then EventText(f.name.value) + Eol(m.event) else ""
  }

  /** The frame as the parser gets it. */
  function PrintMarked(f: Frame, m: Mark): string {
    HeadMarked(f, m) + (DataText(f.payload) + (Eol(m.data) + Eol(m.blank)))
  }

  function PrintMarkedAll(fs: seq<Frame>, marks: seq<Mark>): string
    requires |marks| == |fs|
  {
    if fs == [] then "" else PrintMarked(fs[0], marks[0]) + PrintMarkedAll(fs[1..], marks[1..])
  }

  predicate NoCr(f: Frame) {
    '\r' !in f.payload && (f.name.Some? ==> '\r' !in f.name.value)
  }

  lemma KeepHead(f: Frame, rest: string, cuts: set<nat>, at: nat)
    requires NoCr(f)
    ensures var m := MarkOf(f, cuts, at);
            Keep(HeadCrlf(f) + rest, cuts, at) == HeadMarked(f, m) + Keep(rest, cuts, at + |HeadCrlf(f)|)
  {
    if f.name.Some? {
      var line := EventText(f.name.value);
      Associates(line, CRLF, rest);
      KeepPlain(line, CRLF + rest, cuts, at);
      KeepBreak(rest, cuts, at + |line|);
      Associates(line, Eol(at + |line| + 1 in cuts), Keep(rest, cuts, at + |line| + 2));
    } else {
      assert HeadCrlf(f) + rest == rest;
    }
  }

  lemma Regroup(a: string, b: string, c: string, d: string, rest: string)
    ensures a + (b + (c + d)) + rest == a + (b + (c + (d + rest)))
  {
    Associates(a, b + (c + d), rest);
    Associates(b, c + d, rest);
    Associates(c, d, rest);
  }

  lemma KeepTail(p: string, rest: string, cuts: set<nat>, at: nat)
    requires '\r' !in p
    ensures var after := at + |DataText(p)|;
            Keep(DataText(p) + (CRLF + (CRLF + rest)), cuts, at) ==
            DataText(p) + (Eol(after + 1 in cuts) + (Eol(after + 3 in cuts) + Keep(rest, cuts, after + 4)))
  {
    var after := at + |DataText(p)|;
    KeepPlain(DataText(p), CRLF + (CRLF + rest), cuts, at);
    KeepBreak(CRLF + rest, cuts, after);
    KeepBreak(rest, cuts, after + 2);
  }

  lemma KeepFrame(f: Frame, rest: string, cuts: set<nat>, at: nat)
    requires NoCr(f)
    ensures Keep(PrintCrlf(f) + rest, cuts, at) == PrintMarked(f, MarkOf(f, cuts, at)) + Keep(rest, cuts, at + |PrintCrlf(f)|)
  {
    var m, line := MarkOf(f, cuts, at), DataText(f.payload);
    Regroup(HeadCrlf(f), line, CRLF, CRLF, rest);
    KeepHead(f, line + (CRLF + (CRLF + rest)), cuts, at);
    KeepTail(f.payload, rest, cuts, at + |HeadCrlf(f)|);
    Regroup(HeadMarked(f, m), line, Eol(m.data), Eol(m.blank), Keep(rest, cuts, at + |PrintCrlf(f)|));
  }

  lemma PrintMarkedFirst(fs: seq<Frame>, m: Mark, rest: seq<Mark>)
    requires fs != [] && |rest| == |fs| - 1
    ensures PrintMarkedAll(fs, [m] + rest) == PrintMarked(fs[0], m) + PrintMarkedAll(fs[1..], rest)
  {
    assert ([m] + rest)[1..] == rest;
  }

  lemma KeepFirst(fs: seq<Frame>, cuts: set<nat>, at: nat)
    requires fs != [] && NoCr(fs[0])
    requires var next := at + |PrintCrlf(fs[0])|;
             Keep(PrintCrlfAll(fs[1..]), cuts, next) == PrintMarkedAll(fs[1..], Marks(fs[1..], cuts, next))
    ensures Keep(PrintCrlfAll(fs), cuts, at) == PrintMarkedAll(fs, Marks(fs, cuts, at))
  {
    KeepFrame(fs[0], PrintCrlfAll(fs[1..]), cuts, at);
    PrintMarkedFirst(fs, MarkOf(fs[0], cuts, at), Marks(fs[1..], cuts, at + |PrintCrlf(fs[0])|));
  }

  lemma {:induction false} KeepFrames(fs: seq<Frame>, cuts: set<nat>, at: nat)
    requires forall f <- fs :: NoCr(f)
    ensures Keep(PrintCrlfAll(fs), cuts, at) == PrintMarkedAll(fs, Marks(fs, cuts, at))
    decreases |fs|
  {
    if fs == [] {
    } else {
      assert fs[0] in fs;
      KeepFrames(fs[1..], cuts, at + |PrintCrlf(fs[0])|);
      KeepFirst(fs, cuts, at);
    }
  }

  // ---------------------------------------------------------------- what is read from them

  function Cr(divided: bool): string {
    if divided then "\r" else ""
  }

  /** The frame that a parser of LF lines sees: a carriage return is left where a cut divided a line end. */
  function Worn(f: Frame, m: Mark): Frame {
    Frame(if f.name.Some? then Some(f.name.value + Cr(m.event)) else None, f.payload + Cr(m.data))
  }

  lemma EndOfLine(s: string, divided: bool)
    ensures s + Eol(divided) == s + Cr(divided) + "\n"
  {
  }

  lemma MarkedIsWorn(f: Frame, m: Mark)
    ensures PrintMarked(f, m) == Body(Worn(f, m)) + "\n" + Eol(m.blank)
    ensures !m.blank ==> PrintMarked(f, m) == Print(Worn(f, m))
  {
    var w, line := Worn(f, m), DataText(f.payload);
    Associates(line, Eol(m.data), Eol(m.blank));
    EndOfLine(line, m.data);
    assert line + Cr(m.data) == DataText(w.payload);
    if f.name.Some? {
      EndOfLine(EventText(f.name.value), m.event);
      assert EventText(f.name.value) + Cr(m.event) == EventText(w.name.value);
    }
    Associates(HeadMarked(f, m), DataText(w.payload) + "\n", Eol(m.blank));
    Associates(HeadMarked(f, m), DataText(w.payload), "\n");
    assert "\n" + "\n" == BOUNDARY;
    Associates(Body(w), "\n", "\n");
  }

  lemma {:induction false} TrimRightDropsCr(s: string)
    ensures TrimRight(s + "\r", ScriptSpace) == TrimRight(s, ScriptSpace)
  {
    assert (s + "\r")[..|s + "\r"| - 1] == s;
  }

  lemma TrimDropsCr(name: string)
    requires Tight(name, ScriptSpace)
    ensures Trim(name + "\r", ScriptSpace) == name
  {
    TightIsTrimmed(name, ScriptSpace);
    if name == "" {
      assert "" + "\r" == "\r" && "\r"[1..] == "";
    } else {
      TrimRightDropsCr(name);
    }
  }

  lemma WornIsLegible(f: Frame, m: Mark)
    requires Clean(f)
    ensures Legible(Worn(f, m)) && Heard(Worn(f, m)) == (Expected(f).0, f.payload + Cr(m.data))
  {
    if f.name.Some? {
      TightIsTrimmed(f.name.value, ScriptSpace);
      TrimDropsCr(f.name.value);
      assert f.name.value + "" == f.name.value;
    }
  }

  function WornAll(fs: seq<Frame>, marks: seq<Mark>): (worn: seq<Frame>)
    requires |marks| == |fs|
    ensures |worn| == |fs| && forall i | 0 <= i < |fs| :: worn[i] == Worn(fs[i], marks[i])
  {
    if fs == [] then [] else [Worn(fs[0], marks[0])] + WornAll(fs[1..], marks[1..])
  }

  /** How many frames are run into the next one because a cut divides their blank line. */
  function Merged(marks: seq<Mark>): nat {
    if |marks| < 2 then 0 else (if marks[0].blank then 1 else 0) + Merged(marks[1..])
  }

  // ---------------------------------------------------------------- a divided blank line

  /** A line in front keeps the first block open and the later ones as they are. */
  lemma LineInFront(head: string, text: string)
    requires '\n' !in head && text != "" && text[0] != '\n'
    ensures Blocks(head + "\n" + text) == [head + "\n" + Blocks(text)[0]] + Blocks(text)[1..]
  {
    match Find(text, BOUNDARY) {
      case None =>
        forall j | 0 <= j
          ensures !OccursAt(head + "\n" + text, BOUNDARY, j)
        {
          BoundariesMove(head, text, j);
        }
      case Some(i) => NamedBlocks(head, text, i);
    }
  }

  lemma LoneBreak()
    ensures Blocks(CRLF) == [CRLF] && Lines(CRLF) == ["\r"] + [""]
  {
    BoundaryIsTwoNewlines(CRLF, 0);
    assert Lines("") == [""];
    FirstLine("\r", "");
    assert "\r" + "\n" + "" == CRLF;
  }

  /** A text behind a frame: nothing, or another frame. */
  predicate Follows(text: string) {
    text == "" || text[0] == 'd' || text[0] == 'e'
  }

  lemma BreakInFront(text: string)
    requires Follows(text)
    ensures Blocks(CRLF + text)[1..] == Blocks(text)[1..]
  {
    if text == "" {
      LoneBreak();
      NothingInNothing();
      assert CRLF + text == CRLF;
    } else {
      LineInFront("\r", text);
      assert "\r" + "\n" + text == CRLF + text;
    }
  }

  lemma TwoLines(head: string, line: string, text: string)
    ensures (head + "\n" + line) + "\n" + text == head + "\n" + (line + "\n" + text)
  {
    Associates(head + "\n", line + "\n", text);
    Associates(head + "\n", line, "\n");
  }

  lemma BodyInFront(f: Frame, text: string)
    requires Legible(f) && text != "" && text[0] != '\n'
    ensures Blocks(Body(f) + "\n" + text) == [Body(f) + "\n" + Blocks(text)[0]] + Blocks(text)[1..]
  {
    OneLineEach(f);
    var line := DataText(f.payload);
    LineInFront(line, text);
    if f.name.Some? {
      var head := EventText(f.name.value);
      LineInFront(head, line + "\n" + text);
      TwoLines(head, line, text);
      TwoLines(head, line, Blocks(text)[0]);
    }
  }

  /** A frame whose blank line is divided takes no block of its own. */
  lemma DividedBlankJoins(f: Frame, m: Mark, text: string)
    requires Clean(f) && m.blank && Follows(text)
    ensures Blocks(PrintMarked(f, m) + text)[1..] == Blocks(text)[1..]
  {
    var w := Worn(f, m);
    WornIsLegible(f, m);
    MarkedIsWorn(f, m);
    Associates(Body(w) + "\n", CRLF, text);
    BodyInFront(w, CRLF + text);
    BreakInFront(text);
  }

  lemma MarkedFollows(fs: seq<Frame>, marks: seq<Mark>)
    requires |marks| == |fs|
    ensures Follows(PrintMarkedAll(fs, marks))
  {
    if fs != [] {
      assert EventText("x")[0] == 'e' && DataText("x")[0] == 'd';
      assert PrintMarked(fs[0], marks[0])[0] == 'd' || PrintMarked(fs[0], marks[0])[0] == 'e';
    }
  }

  /** Reads from the blocks behind the first. */
  function LaterReads(text: string): nat {
    |ReadEach(Blocks(text)[1..])|
  }

  lemma ReadsOfFirst(text: string)
    ensures |ReadEach(Blocks(text))| <= 1 + LaterReads(text)
  {
  }

  lemma OneMarkedFrame(f: Frame, m: Mark, text: string)
    requires Clean(f) && Follows(text)
    ensures m.blank ==> LaterReads(PrintMarked(f, m) + text) == LaterReads(text)
    ensures !m.blank ==> LaterReads(PrintMarked(f, m) + text) == |ReadEach(Blocks(text))|
  {
    if m.blank {
      DividedBlankJoins(f, m, text);
    } else {
      WornIsLegible(f, m);
      MarkedIsWorn(f, m);
      FrameIsABlock(Worn(f, m), text);
    }
  }

  /** Every frame run into the next one costs a read. */
  lemma {:induction false} MergedFramesAreLost(fs: seq<Frame>, marks: seq<Mark>)
    requires fs != [] && |marks| == |fs| && forall f <- fs :: Clean(f)
    ensures LaterReads(PrintMarkedAll(fs, marks)) + 1 + Merged(marks) <= |fs|
    decreases |fs|
  {
    var rest := PrintMarkedAll(fs[1..], marks[1..]);
    assert fs[0] in fs;
    MarkedFollows(fs[1..], marks[1..]);
    OneMarkedFrame(fs[0], marks[0], rest);
    if |fs| == 1 {
      NothingInNothing();
    } else {
      MergedFramesAreLost(fs[1..], marks[1..]);
      ReadsOfFirst(rest);
    }
  }

  // ---------------------------------------------------------------- no divided blank line, save the last

  lemma DataOfFirst(line: string, rest: seq<string>)
    ensures DataOf([line] + rest) == DataOf([line]) + DataOf(rest)
  {
    assert ([line] + rest)[1..] == rest && [line][1..] == [];
    assert DataOf([line]) == DataOf([line]) + [];
  }

  lemma {:induction false} DataOfBoth(a: seq<string>, b: seq<string>)
    ensures DataOf(a + b) == DataOf(a) + DataOf(b)
  {
    if a == [] {
      assert a + b == b;
    } else {
      var rest := a[1..];
      assert a == [a[0]] + rest;
      AssocThree([a[0]], rest, b);
      DataOfFirst(a[0], rest + b);
      DataOfFirst(a[0], rest);
      DataOfBoth(rest, b);
      AssocThree(DataOf([a[0]]), DataOf(rest), DataOf(b));
    }
  }

  lemma {:induction false} NameOfBoth(a: seq<string>, b: seq<string>, name: string)
    ensures NameOf(a + b, name) == NameOf(b, NameOf(a, name))
    decreases |a|
  {
    if a == [] {
      assert a + b == b;
    } else {
      assert (a + b)[1..] == a[1..] + b;
      NameOfBoth(a[1..], b, if StartsWith(a[0], EVENT) then Trim(a[0][6..], ScriptSpace) else name);
    }
  }

  lemma LinesBehindTwo(head: string, line: string, rest: string)
    requires '\n' !in head && '\n' !in line
    ensures Lines((head + "\n" + line) + "\n" + rest) == [head] + [line] + Lines(rest)
  {
    TwoLines(head, line, rest);
    FirstLine(head, line + "\n" + rest);
    FirstLine(line, rest);
    AssocThree([head], [line], Lines(rest));
  }

  lemma LinesBehindBody(f: Frame, rest: string)
    requires Legible(f)
    ensures Lines(Body(f) + "\n" + rest) == Lines(Body(f)) + Lines(rest)
  {
    OneLineEach(f);
    LinesOfBody(f);
    if f.name.Some? {
      LinesBehindTwo(EventText(f.name.value), DataText(f.payload), rest);
    } else {
      FirstLine(DataText(f.payload), rest);
    }
  }

  lemma SilentLines()
    ensures DataOf(["\r"] + [""]) == [] && forall name :: NameOf(["\r"] + [""], name) == name
  {
    var lines := ["\r"] + [""];
    assert lines[1..] == [""] && [""][1..] == [];
    assert EVENT[0] == 'e' && DATA[0] == 'd';
    assert !StartsWith("\r", EVENT) && !StartsWith("\r", DATA) && !StartsWith("", EVENT) && !StartsWith("", DATA);
    assert DataOf([""]) == [] + DataOf([]) && DataOf(lines) == [] + DataOf([""]);
    forall name
      ensures NameOf(lines, name) == name
    {
      assert NameOf([""], name) == NameOf([], name);
    }
  }

  lemma SilentBehind(lines: seq<string>)
    ensures DataOf(lines + (["\r"] + [""])) == DataOf(lines)
    ensures NameOf(lines + (["\r"] + [""]), "message") == NameOf(lines, "message")
  {
    SilentLines();
    DataOfBoth(lines, ["\r"] + [""]);
    NameOfBoth(lines, ["\r"] + [""], "message");
    assert DataOf(lines) + [] == DataOf(lines);
  }

  lemma ReadBehindBody(f: Frame)
    requires Legible(f)
    ensures Read(Body(f) + "\n" + CRLF) == Some(Heard(f))
  {
    LoneBreak();
    LinesBehindBody(f, CRLF);
    SilentBehind(Lines(Body(f)));
    SolidIsNotBlank(Body(f) + "\n" + CRLF);
    ReadBody(f);
  }

  /** A frame left in the buffer at the end of the stream is read all the same. */
  lemma ReadLeftover(f: Frame)
    requires Legible(f)
    ensures ReadEach(Blocks(Body(f) + "\n" + CRLF)) == [Heard(f)]
  {
    var text := Body(f) + "\n" + CRLF;
    BodyInFront(f, CRLF);
    LoneBreak();
    assert Blocks(text) == [text] && [text][1..] == [];
    ReadBehindBody(f);
  }

  lemma MergedRest(marks: seq<Mark>)
    requires marks != [] && Merged(marks) == 0
    ensures Merged(marks[1..]) == 0 && (|marks| > 1 ==> !marks[0].blank)
  {
  }

  lemma {:induction false} UnmergedFramesAreRead(fs: seq<Frame>, marks: seq<Mark>)
    requires |marks| == |fs| && Merged(marks) == 0 && forall f <- fs :: Clean(f)
    ensures ReadEach(Blocks(PrintMarkedAll(fs, marks))) == HeardAll(WornAll(fs, marks))
    decreases |fs|
  {
    if fs == [] {
      NothingInNothing();
    } else {
      assert fs[0] in fs;
      var w, rest := Worn(fs[0], marks[0]), PrintMarkedAll(fs[1..], marks[1..]);
      var worn := WornAll(fs[1..], marks[1..]);
      MergedRest(marks);
      UnmergedFramesAreRead(fs[1..], marks[1..]);
      WornIsLegible(fs[0], marks[0]);
      MarkedIsWorn(fs[0], marks[0]);
      assert ([w] + worn)[1..] == worn;
      if marks[0].blank {
        ReadLeftover(w);
        assert PrintMarked(fs[0], marks[0]) + "" == PrintMarked(fs[0], marks[0]);
      } else {
        OneFrameThen(w, rest);
      }
    }
  }

  // ---------------------------------------------------------------- what is dispatched

  lemma {:induction false} DeliverNothing(json: string -> Option<Json>, seen: Seen, pairs: seq<(string, string)>)
    requires !seen.ok
    ensures DeliverAll(json, seen, pairs) == seen
  {
    if pairs == [] {
    } else {
      DeliverNothing(json, seen, pairs[1..]);
    }
  }

  lemma {:induction false} DeliverAllIs(json: string -> Option<Json>, seen: Seen, pairs: seq<(string, string)>)
    requires seen.ok
    ensures var end := DeliverAll(json, seen, pairs);
            && |end.events| <= |seen.events| + |pairs|
            && (end.ok <==> forall pair <- pairs :: Told(json, pair.0, pair.1).Some?)
            && (end.ok ==> |end.events| == |seen.events| + |pairs| && end.events[..|seen.events|] == seen.events
                           && forall i | 0 <= i < |pairs| :: Some(end.events[|seen.events| + i]) == Told(json, pairs[i].0, pairs[i].1))
    decreases |pairs|
  {
    if pairs == [] {
    } else {
      var next := Deliver(json, seen, pairs[0].0, pairs[0].1);
      if next.ok {
        DeliverAllIs(json, next, pairs[1..]);
        assert forall pair <- pairs :: pair == pairs[0] || pair in pairs[1..];
        assert forall i | 0 < i < |pairs| :: pairs[i] == pairs[1..][i - 1];
      } else {
        DeliverNothing(json, next, pairs[1..]);
        assert pairs[0] in pairs;
      }
    }
  }

  /** The frame carries something the parser can deliver: JSON, or the closing mark. */
  predicate Deliverable(json: string -> Option<Json>, f: Frame) {
    f.payload == DONE || json(f.payload).Some?
  }

  /** The cuts inside a frame change nothing: its blank line is whole unless nothing follows, and its data
      line is whole unless JSON.parse takes the payload the same with a carriage return behind it. A cut at
      the end of the event line never matters. */
  predicate Harmless(json: string -> Option<Json>, f: Frame, m: Mark, last: bool) {
    && (m.blank ==> last)
    && (m.data ==> f.payload != DONE && json(f.payload + "\r") == json(f.payload))
  }

  ghost predicate AllHarmless(json: string -> Option<Json>, fs: seq<Frame>, marks: seq<Mark>)
    requires |marks| == |fs|
  {
    forall i | 0 <= i < |fs| :: Harmless(json, fs[i], marks[i], i == |fs| - 1)
  }

  lemma CrIsNotDone(p: string)
    ensures p + "\r" != DONE
  {
    assert (p + "\r")[|p|] == '\r' && DONE[5] == ']' && |DONE| == 6;
  }

  lemma ToldOfWorn(json: string -> Option<Json>, f: Frame, m: Mark)
    requires Deliverable(json, f)
    ensures var name := Expected(f).0;
            Told(json, name, f.payload).Some?
            && (Told(json, name, f.payload + Cr(m.data)) == Told(json, name, f.payload)
                <==> (m.data ==> f.payload != DONE && json(f.payload + "\r") == json(f.payload)))
  {
    CrIsNotDone(f.payload);
    assert f.payload + "" == f.payload;
  }

  lemma MergedIff(marks: seq<Mark>)
    ensures Merged(marks) == 0 <==> forall i | 0 <= i < |marks| - 1 :: !marks[i].blank
  {
    if |marks| < 2 {
    } else {
      MergedIff(marks[1..]);
      assert forall i | 0 <= i < |marks| - 2 :: marks[1..][i] == marks[i + 1];
    }
  }

  lemma {:induction false} ExpectedAt(fs: seq<Frame>)
    ensures |ExpectedAll(fs)| == |fs| && forall i | 0 <= i < |fs| :: ExpectedAll(fs)[i] == Expected(fs[i])
  {
    if fs == [] {
    } else {
      ExpectedAt(fs[1..]);
    }
  }

  lemma {:induction false} HeardAt(fs: seq<Frame>)
    ensures |HeardAll(fs)| == |fs| && forall i | 0 <= i < |fs| :: HeardAll(fs)[i] == Heard(fs[i])
  {
    if fs == [] {
    } else {
      HeardAt(fs[1..]);
    }
  }

  lemma HeardFromWorn(fs: seq<Frame>, marks: seq<Mark>, i: nat)
    requires |marks| == |fs| && i < |fs| && forall f <- fs :: Clean(f)
    ensures |HeardAll(WornAll(fs, marks))| == |fs|
    ensures HeardAll(WornAll(fs, marks))[i] == (Expected(fs[i]).0, fs[i].payload + Cr(marks[i].data))
  {
    assert fs[i] in fs;
    HeardAt(WornAll(fs, marks));
    WornIsLegible(fs[i], marks[i]);
  }

  /** All frames delivered. */
  lemma AllAreDelivered(json: string -> Option<Json>, fs: seq<Frame>)
    requires forall f <- fs :: Deliverable(json, f)
    ensures var end := DeliverAll(json, Seen([], true), ExpectedAll(fs)); end.ok && |end.events| == |fs|
  {
    ExpectedAt(fs);
    forall pair | pair in ExpectedAll(fs)
      ensures Told(json, pair.0, pair.1).Some?
    {
      var i :| 0 <= i < |fs| && ExpectedAll(fs)[i] == pair;
      assert fs[i] in fs;
    }
    DeliverAllIs(json, Seen([], true), ExpectedAll(fs));
  }

  /** Frames run together deliver fewer events. */
  lemma MergedDiffers(json: string -> Option<Json>, fs: seq<Frame>, marks: seq<Mark>)
    requires |marks| == |fs| && Merged(marks) > 0 && forall f <- fs :: Clean(f)
    ensures |ParseWhole(json, PrintMarkedAll(fs, marks)).events| < |fs|
  {
    var text := PrintMarkedAll(fs, marks);
    MergedFramesAreLost(fs, marks);
    ReadsOfFirst(text);
    DispatchDeliversWhatIsRead(json, Seen([], true), Blocks(text));
    DeliverAllIs(json, Seen([], true), ReadEach(Blocks(text)));
  }

  lemma UnmergedParse(json: string -> Option<Json>, fs: seq<Frame>, marks: seq<Mark>)
    requires |marks| == |fs| && Merged(marks) == 0 && forall f <- fs :: Clean(f)
    ensures ParseWhole(json, PrintMarkedAll(fs, marks)) == DeliverAll(json, Seen([], true), HeardAll(WornAll(fs, marks)))
  {
    UnmergedFramesAreRead(fs, marks);
    DispatchDeliversWhatIsRead(json, Seen([], true), Blocks(PrintMarkedAll(fs, marks)));
  }

  ghost predicate SameTold(json: string -> Option<Json>, a: seq<(string, string)>, b: seq<(string, string)>)
    requires |a| == |b|
  {
    forall i | 0 <= i < |a| :: Told(json, b[i].0, b[i].1) == Told(json, a[i].0, a[i].1)
  }

  lemma {:induction false} SameToldSameEvents(json: string -> Option<Json>, seen: Seen, a: seq<(string, string)>, b: seq<(string, string)>)
    requires |a| == |b| && SameTold(json, a, b)
    ensures DeliverAll(json, seen, a) == DeliverAll(json, seen, b)
    decreases |a|
  {
    if a == [] {
    } else {
      SameToldSameEvents(json, if seen.ok then Deliver(json, seen, a[0].0, a[0].1) else seen, a[1..], b[1..]);
    }
  }

  lemma SameEventsSameTold(json: string -> Option<Json>, a: seq<(string, string)>, b: seq<(string, string)>)
    requires |a| == |b| && DeliverAll(json, Seen([], true), a).ok
    requires DeliverAll(json, Seen([], true), a) == DeliverAll(json, Seen([], true), b)
    ensures SameTold(json, a, b)
  {
    DeliverAllIs(json, Seen([], true), a);
    DeliverAllIs(json, Seen([], true), b);
  }

  /** Payload by payload: the same events exactly when every payload tells the same. */
  lemma SameEventsIff(json: string -> Option<Json>, a: seq<(string, string)>, b: seq<(string, string)>)
    requires |a| == |b| && DeliverAll(json, Seen([], true), a).ok
    ensures DeliverAll(json, Seen([], true), a) == DeliverAll(json, Seen([], true), b) <==> SameTold(json, a, b)
  {
    if SameTold(json, a, b) {
      SameToldSameEvents(json, Seen([], true), a, b);
    } else if DeliverAll(json, Seen([], true), a) == DeliverAll(json, Seen([], true), b) {
      SameEventsSameTold(json, a, b);
    }
  }

  lemma UnmergedShowIff(json: string -> Option<Json>, fs: seq<Frame>, marks: seq<Mark>)
    requires |marks| == |fs| && Merged(marks) == 0 && forall f <- fs :: Clean(f) && Deliverable(json, f)
    ensures |HeardAll(WornAll(fs, marks))| == |ExpectedAll(fs)|
    ensures SameTold(json, ExpectedAll(fs), HeardAll(WornAll(fs, marks)))
            <==> AllHarmless(json, fs, marks)
  {
    ExpectedAt(fs);
    MergedIff(marks);
    HeardAt(WornAll(fs, marks));
    var a, b := ExpectedAll(fs), HeardAll(WornAll(fs, marks));
    forall i | 0 <= i < |fs|
      ensures Told(json, b[i].0, b[i].1) == Told(json, a[i].0, a[i].1) <==> Harmless(json, fs[i], marks[i], i == |fs| - 1)
    {
      assert fs[i] in fs;
      HeardFromWorn(fs, marks, i);
      ToldOfWorn(json, fs[i], marks[i]);
    }
  }

  /** What the parser dispatches from marked frames is what was sent exactly when every mark is harmless. */
  lemma MarksShowIff(json: string -> Option<Json>, fs: seq<Frame>, marks: seq<Mark>)
    requires |marks| == |fs| && forall f <- fs :: Clean(f) && Deliverable(json, f)
    ensures ParseWhole(json, PrintMarkedAll(fs, marks)) == DeliverAll(json, Seen([], true), ExpectedAll(fs))
            <==> AllHarmless(json, fs, marks)
  {
    AllAreDelivered(json, fs);
    if Merged(marks) > 0 {
      MergedDiffers(json, fs, marks);
      MergedIff(marks);
      var i :| 0 <= i < |fs| - 1 && marks[i].blank;
      assert !Harmless(json, fs[i], marks[i], i == |fs| - 1);
    } else {
      UnmergedParse(json, fs, marks);
      UnmergedShowIff(json, fs, marks);
      SameEventsIff(json, ExpectedAll(fs), HeardAll(WornAll(fs, marks)));
    }
  }

  lemma Unmarked(f: Frame, at: nat)
    ensures PrintMarked(f, MarkOf(f, {}, at)) == Print(f)
  {
    var m := Mark(false, false, false);
    assert MarkOf(f, {}, at) == m;
    MarkedIsWorn(f, m);
    assert f.payload + "" == f.payload && (f.name.Some? ==> f.name.value + "" == f.name.value);
    assert Worn(f, m) == f;
  }

  lemma {:induction false} NoMarks(fs: seq<Frame>, at: nat)
    ensures PrintMarkedAll(fs, Marks(fs, {}, at)) == PrintAll(fs)
  {
    if fs == [] {
    } else {
      var next := at + |PrintCrlf(fs[0])|;
      Unmarked(fs[0], at);
      NoMarks(fs[1..], next);
      PrintMarkedFirst(fs, MarkOf(fs[0], {}, at), Marks(fs[1..], {}, next));
    }
  }

  lemma WholeParse(json: string -> Option<Json>, fs: seq<Frame>)
    requires forall f <- fs :: Clean(f) && NoCr(f)
    ensures ParseWhole(json, Normalize(PrintCrlfAll(fs))) == DeliverAll(json, Seen([], true), ExpectedAll(fs))
  {
    KeepWhole(PrintCrlfAll(fs), 0);
    KeepFrames(fs, {}, 0);
    NoMarks(fs, 0);
    BlocksOfFrames(fs);
    DispatchDeliversWhatIsRead(json, Seen([], true), Blocks(PrintAll(fs)));
  }

  /** Clean, deliverable frames with CRLF line ends, cut into chunks in any way: the parser dispatches what
      it would dispatch from the whole text, which is what was sent, if and only if every cut is harmless. */
  lemma CutsShowIff(json: string -> Option<Json>, fs: seq<Frame>, chunks: seq<string>)
    requires forall f <- fs :: Clean(f) && NoCr(f) && Deliverable(json, f)
    requires Concat(chunks) == PrintCrlfAll(fs)
    ensures ParseWhole(json, Normalize(Concat(chunks))) == DeliverAll(json, Seen([], true), ExpectedAll(fs))
    ensures ParseWhole(json, NormalizeEach(chunks)) == ParseWhole(json, Normalize(Concat(chunks)))
            <==> AllHarmless(json, fs, Marks(fs, Cuts(chunks), 0))
  {
    NormalizeEachKeeps(chunks);
    KeepFrames(fs, Cuts(chunks), 0);
    MarksShowIff(json, fs, Marks(fs, Cuts(chunks), 0));
    WholeParse(json, fs);
  }

  // ---------------------------------------------------------------- cuts that show

  lemma OneChunk(text: string)
    ensures Concat([text]) == text && NormalizeEach([text]) == Normalize(text)
  {
    assert [text][..0] == [];
    assert "" + text == text && "" + Normalize(text) == Normalize(text);
  }

  lemma TwoChunks(a: string, b: string)
    ensures Concat([a] + [b]) == a + b && |a| in Cuts([a] + [b])
  {
    assert ([a] + [b])[..1] == [a];
    OneChunk(a);
    CutsWithin([a]);
  }

  /** In these chunks the text dispatches other events than in one piece. */
  ghost predicate CutsShow(json: string -> Option<Json>, chunks: seq<string>) {
    ParseWhole(json, NormalizeEach(chunks)) != ParseWhole(json, NormalizeEach([Concat(chunks)]))
  }

  lemma HarmfulCutsShow(json: string -> Option<Json>, fs: seq<Frame>, chunks: seq<string>, i: nat)
    requires forall f <- fs :: Clean(f) && NoCr(f) && Deliverable(json, f)
    requires Concat(chunks) == PrintCrlfAll(fs)
    requires i < |fs| && !Harmless(json, fs[i], Marks(fs, Cuts(chunks), 0)[i], i == |fs| - 1)
    ensures CutsShow(json, chunks)
  {
    OneChunk(Concat(chunks));
    CutsShowIff(json, fs, chunks);
  }

  lemma OneFrame(f: Frame, cuts: set<nat>)
    ensures PrintCrlfAll([f]) == PrintCrlf(f) && Marks([f], cuts, 0)[0] == MarkOf(f, cuts, 0)
  {
    assert [f][1..] == [];
    assert PrintCrlf(f) + "" == PrintCrlf(f);
  }

  /** The closing mark, cut inside its line end, is not recognised. */
  lemma CutInsideDoneShows(json: string -> Option<Json>)
    ensures CutsShow(json, [DataText(DONE) + "\r"] + ["\n" + CRLF])
  {
    var f, a, b := Frame(None, DONE), DataText(DONE) + "\r", "\n" + CRLF;
    assert DONE == "[DONE]" && DONE[0] == '[';
    assert a + b == PrintCrlf(f);
    TwoChunks(a, b);
    OneFrame(f, Cuts([a] + [b]));
    HarmfulCutsShow(json, [f], [a] + [b], 0);
  }

  lemma FirstMark(f: Frame, g: Frame, cuts: set<nat>)
    ensures PrintCrlfAll([f] + [g]) == PrintCrlf(f) + PrintCrlf(g) && Marks([f] + [g], cuts, 0)[0] == MarkOf(f, cuts, 0)
  {
    assert ([f] + [g])[1..] == [g];
    OneFrame(g, cuts);
  }

  lemma BlankMark(f: Frame, cuts: set<nat>)
    ensures MarkOf(f, cuts, 0).blank <==> |PrintCrlf(f)| - 1 in cuts
  {
  }

  /** Two frames, cut inside the blank line between them, are run together. */
  lemma CutInsideBlankLineShows(json: string -> Option<Json>, f: Frame, g: Frame, a: string, b: string)
    requires Clean(f) && NoCr(f) && Deliverable(json, f) && Clean(g) && NoCr(g) && Deliverable(json, g)
    requires a + b == PrintCrlf(f) + PrintCrlf(g) && |a| == |PrintCrlf(f)| - 1
    ensures CutsShow(json, [a] + [b])
  {
    var chunks := [a] + [b];
    TwoChunks(a, b);
    FirstMark(f, g, Cuts(chunks));
    BlankMark(f, Cuts(chunks));
    HarmfulCutsShow(json, [f] + [g], chunks, 0);
  }
}
