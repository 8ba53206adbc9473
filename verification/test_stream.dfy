/** A whole test stream, from the server's generator to the dashboard's events. */
module TestStream {
  import opened Common
  import opened Text
  import opened Sse
  import opened SseLaws
  import opened SseCrlf

  // ---------------------------------------------------------------- what the server sends

  function ChunkLines(chunks: seq<string>): string {
    if chunks == [] then "" else "data: " + chunks[0] + "\n\n" + ChunkLines(chunks[1..])
  }

  /** The generator of a test run: a meta frame, the translated chunks, a result frame, the closing mark. */
  function Generated(meta: string, chunks: seq<string>, result: string): string {
    "event: proxy.meta\ndata: " + meta + "\n\n"
    + (ChunkLines(chunks)
       + ("event: proxy.result\ndata: " + result + "\n\n"
          + "data: [DONE]\n\n"))
  }

  /** Printed JSON: one line without white space in front, which parses to the value. */
  ghost predicate Prints(json: string -> Option<Json>, payload: string, value: Json) {
    && '\n' !in payload && '\r' !in payload && payload != "" && !ScriptSpace(payload[0])
    && payload != "[DONE]" && json(payload) == Some(value)
  }

  // ---------------------------------------------------------------- its frames

  function ChunkFrames(chunks: seq<string>): (frames: seq<Frame>)
    ensures |frames| == |chunks| && forall i | 0 <= i < |chunks| :: frames[i] == Frame(None, chunks[i])
  {
    if chunks == [] then [] else [Frame(None, chunks[0])] + ChunkFrames(chunks[1..])
  }

  function Frames(meta: string, chunks: seq<string>, result: string): seq<Frame> {
    [Frame(Some("proxy.meta"), meta)] + (ChunkFrames(chunks) + [Frame(Some("proxy.result"), result), Frame(None, "[DONE]")])
  }

  lemma {:induction false} PrintBoth(a: seq<Frame>, b: seq<Frame>)
    ensures PrintAll(a + b) == PrintAll(a) + PrintAll(b)
  {
    if a == [] {
      assert a + b == b;
    } else {
      assert (a + b)[1..] == a[1..] + b;
      PrintBoth(a[1..], b);
      Associates(Print(a[0]), PrintAll(a[1..]), PrintAll(b));
    }
  }

  lemma PrintOne(f: Frame)
    ensures PrintAll([f]) == Print(f)
  {
    assert [f][1..] == [] && Print(f) + "" == Print(f);
  }

  lemma {:induction false} PrintChunks(chunks: seq<string>)
    ensures PrintAll(ChunkFrames(chunks)) == ChunkLines(chunks)
  {
    if chunks == [] {
    } else {
      PrintChunks(chunks[1..]);
      assert ([Frame(None, chunks[0])] + ChunkFrames(chunks[1..]))[1..] == ChunkFrames(chunks[1..]);
    }
  }

  lemma PrintInThree(first: Frame, middle: seq<Frame>, y: Frame, z: Frame)
    ensures PrintAll([first] + (middle + [y, z])) == Print(first) + (PrintAll(middle) + (Print(y) + Print(z)))
  {
    PrintBoth([first], middle + [y, z]);
    PrintBoth(middle, [y, z]);
    assert [y, z] == [y] + [z];
    PrintBoth([y], [z]);
    PrintOne(first);
    PrintOne(y);
    PrintOne(z);
  }

  lemma PrintNamed(name: string, payload: string, head: string)
    requires head == "event: " + name + "\ndata: "
    ensures Print(Frame(Some(name), payload)) == head + payload + "\n\n"
  {
    assert EventText(name) + "\n" + DataText(payload) == head + payload;
  }

  lemma PrintMeta(meta: string)
    ensures Print(Frame(Some("proxy.meta"), meta)) == "event: proxy.meta\ndata: " + meta + "\n\n"
  {
    PrintNamed("proxy.meta", meta, "event: proxy.meta\ndata: ");
  }

  lemma PrintResult(result: string)
    ensures Print(Frame(Some("proxy.result"), result)) == "event: proxy.result\ndata: " + result + "\n\n"
  {
    PrintNamed("proxy.result", result, "event: proxy.result\ndata: ");
  }

  lemma PrintDone()
    ensures Print(Frame(None, "[DONE]")) == "data: [DONE]\n\n"
  {
  }

  lemma GeneratedIsPrinted(meta: string, chunks: seq<string>, result: string)
    ensures PrintAll(Frames(meta, chunks, result)) == Generated(meta, chunks, result)
  {
    PrintInThree(Frame(Some("proxy.meta"), meta), ChunkFrames(chunks), Frame(Some("proxy.result"), result), Frame(None, "[DONE]"));
    PrintMeta(meta);
    PrintChunks(chunks);
    PrintResult(result);
    PrintDone();
  }

  // ---------------------------------------------------------------- what the dashboard gets

  function ChunkEvents(values: seq<Json>): (events: seq<Event>)
    ensures |events| == |values| && forall i | 0 <= i < |values| :: events[i] == Chunk(values[i])
  {
    seq(|values|, i requires 0 <= i < |values| => Chunk(values[i]))
  }

  lemma NamesAreClean()
    ensures Tight("proxy.meta", ScriptSpace) && Tight("proxy.result", ScriptSpace)
    ensures '\n' !in "proxy.meta" && '\n' !in "proxy.result" && '\r' !in "proxy.meta" && '\r' !in "proxy.result"
    ensures "proxy.meta" != "proxy.result" && "proxy.meta" != "message" && "proxy.result" != "message"
    ensures !ScriptSpace("[DONE]"[0]) && '\n' !in "[DONE]" && '\r' !in "[DONE]"
  {
    assert |"proxy.meta"| == 10 && |"proxy.result"| == 12 && |"message"| == 7;
  }

  lemma {:induction false} NoCarriageReturn(fs: seq<Frame>)
    requires forall f <- fs :: NoCr(f)
    ensures '\r' !in PrintAll(fs)
  {
    if fs == [] {
    } else {
      assert fs[0] in fs;
      NoCarriageReturn(fs[1..]);
    }
  }

  lemma FramesAreClean(json: string -> Option<Json>, meta: string, m: Json, chunks: seq<string>, values: seq<Json>,
                       result: string, r: Json)
    requires Prints(json, meta, m) && Prints(json, result, r)
    requires |values| == |chunks| && forall i | 0 <= i < |chunks| :: Prints(json, chunks[i], values[i])
    ensures forall f <- Frames(meta, chunks, result) :: Clean(f) && NoCr(f)
  {
    NamesAreClean();
    var fs := ChunkFrames(chunks);
    forall f | f in Frames(meta, chunks, result)
      ensures Clean(f) && NoCr(f)
    {
      if f in fs {
        var i :| 0 <= i < |fs| && fs[i] == f;
      }
    }
  }

  /** The event told by frame number `i`. */
  lemma FrameTells(json: string -> Option<Json>, meta: string, m: Json, chunks: seq<string>, values: seq<Json>,
                   result: string, r: Json, i: nat)
    requires Prints(json, meta, m) && Prints(json, result, r)
    requires |values| == |chunks| && forall i | 0 <= i < |chunks| :: Prints(json, chunks[i], values[i])
    requires i < |chunks| + 3
    ensures var fs := Frames(meta, chunks, result);
            && |fs| == |chunks| + 3
            && Told(json, Expected(fs[i]).0, fs[i].payload) ==
               Some(if i == 0 then Meta(m) else if i <= |chunks| then Chunk(values[i - 1]) else if i == |chunks| + 1 then Outcome(r) else Done)
  {
    NamesAreClean();
    var fs := Frames(meta, chunks, result);
    if 0 < i <= |chunks| {
      assert fs[i] == ChunkFrames(chunks)[i - 1];
    }
  }

  lemma ToldIsDelivered(json: string -> Option<Json>, pairs: seq<(string, string)>, events: seq<Event>)
    requires |events| == |pairs| && forall i | 0 <= i < |pairs| :: Told(json, pairs[i].0, pairs[i].1) == Some(events[i])
    ensures DeliverAll(json, Seen([], true), pairs) == Seen(events, true)
  {
    DeliverAllIs(json, Seen([], true), pairs);
    forall pair | pair in pairs
      ensures Told(json, pair.0, pair.1).Some?
    {
      var i :| 0 <= i < |pairs| && pairs[i] == pair;
    }
    var seen := DeliverAll(json, Seen([], true), pairs);
    assert forall i | 0 <= i < |pairs| :: Some(seen.events[0 + i]) == Some(events[i]);
    assert seen.events == events;
  }

  function Arrived(m: Json, values: seq<Json>, r: Json): (events: seq<Event>)
    ensures |events| == |values| + 3 && events[0] == Meta(m) && events[|values| + 1] == Outcome(r) && events[|values| + 2] == Done
    ensures forall i | 0 < i <= |values| :: events[i] == Chunk(values[i - 1])
  {
    [Meta(m)] + ChunkEvents(values) + [Outcome(r), Done]
  }

  lemma FramesDeliver(json: string -> Option<Json>, meta: string, m: Json, chunks: seq<string>, values: seq<Json>,
                      result: string, r: Json)
    requires Prints(json, meta, m) && Prints(json, result, r)
    requires |values| == |chunks| && forall i | 0 <= i < |chunks| :: Prints(json, chunks[i], values[i])
    ensures DeliverAll(json, Seen([], true), ExpectedAll(Frames(meta, chunks, result))) == Seen(Arrived(m, values, r), true)
  {
    var fs := Frames(meta, chunks, result);
    ExpectedAt(fs);
    FrameTells(json, meta, m, chunks, values, result, r, 0);
    forall i: nat | i < |fs|
      ensures Told(json, ExpectedAll(fs)[i].0, ExpectedAll(fs)[i].1) == Some(Arrived(m, values, r)[i])
    {
      FrameTells(json, meta, m, chunks, values, result, r, i);
    }
    ToldIsDelivered(json, ExpectedAll(fs), Arrived(m, values, r));
  }

  /** However the network cuts a test stream, the dashboard gets the meta data, every chunk in order, the
      result, and the end, each as what it is and with its value. */
  lemma TestStreamArrives(json: string -> Option<Json>, meta: string, m: Json, chunks: seq<string>, values: seq<Json>,
                          result: string, r: Json, cut: seq<string>)
    requires Prints(json, meta, m) && Prints(json, result, r)
    requires |values| == |chunks| && forall i | 0 <= i < |chunks| :: Prints(json, chunks[i], values[i])
    requires Concat(cut) == Generated(meta, chunks, result)
    ensures ParseWhole(json, NormalizeEach(cut)) == Seen([Meta(m)] + ChunkEvents(values) + [Outcome(r), Done], true)
  {
    var fs := Frames(meta, chunks, result);
    FramesAreClean(json, meta, m, chunks, values, result, r);
    GeneratedIsPrinted(meta, chunks, result);
    NoCarriageReturn(fs);
    FramesRoundTrip(json, fs, cut);
    FramesDeliver(json, meta, m, chunks, values, result, r);
  }
}
