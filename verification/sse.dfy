/** Server-sent events: the frames that app/main.py prints and the incremental parser of
    frontend/src/lib/api.ts. */
module Sse {
  import opened Common
  import opened Text

  const BOUNDARY := "\n\n"
  const EVENT := "event:"
  const DATA := "data:"
  const DONE := "[DONE]"
  const META := "proxy.meta"
  const RESULT := "proxy.result"

  // ---------------------------------------------------------------- one block

  /** Splitting at every newline. */
  function Lines(s: string): seq<string>
    ensures Lines(s) != []
  {
    match Find(s, "\n")
    case None => [s]
    case Some(i) => [s[..i]] + Lines(s[i + 1..])
  }

  /** The value of the last `event:` line, or `name` if there is none. */
  function NameOf(lines: seq<string>, name: string): string {
    if lines == [] then name
    else NameOf(lines[1..], if StartsWith(lines[0], EVENT) then Trim(lines[0][6..], ScriptSpace) else name)
  }

  function DataOf(lines: seq<string>): seq<string> {
    if lines == [] then []
    else (if StartsWith(lines[0], DATA) then [TrimLeft(lines[0][5..], ScriptSpace)] else []) + DataOf(lines[1..])
  }

  function Join(parts: seq<string>): string {
    if parts == [] then "" else if |parts| == 1 then parts[0] else parts[0] + "\n" + Join(parts[1..])
  }

  /** Event name and payload of a block; None when it carries no payload. */
  function Read(block: string): Option<(string, string)> {
    if Trim(block, ScriptSpace) == "" then None
    else
      var payload := Join(DataOf(Lines(block)));
      if payload == "" then None else Some((NameOf(Lines(block), "message"), payload))
  }

  datatype Event = Done | Meta(value: Json) | Outcome(value: Json) | Chunk(value: Json)

  /** Events so far; `ok` is false once JSON.parse has thrown. */
  datatype Seen = Seen(events: seq<Event>, ok: bool)

  /** The event of a payload; `json` is JSON.parse, and None where it throws. */
  function Told(json: string -> Option<Json>, name: string, payload: string): Option<Event> {
    if payload == DONE then Some(Done)
    else match json(payload)
      case None => None
      case Some(value) => Some(if name == META then Meta(value) else if name == RESULT then Outcome(value) else Chunk(value))
  }

  function Deliver(json: string -> Option<Json>, seen: Seen, name: string, payload: string): Seen {
    match Told(json, name, payload)
    case None => Seen(seen.events, false)
    case Some(event) => Seen(seen.events + [event], true)
  }

  function Dispatch(json: string -> Option<Json>, seen: Seen, block: string): Seen {
    if !seen.ok then seen
    else match Read(block)
      case None => seen
      case Some((name, payload)) => Deliver(json, seen, name, payload)
  }

  function DispatchAll(json: string -> Option<Json>, seen: Seen, blocks: seq<string>): Seen
    decreases |blocks|
  {
    if blocks == [] then seen else DispatchAll(json, Dispatch(json, seen, blocks[0]), blocks[1..])
  }

  // ---------------------------------------------------------------- the whole text at once

  /** The text cut at every leftmost blank-line boundary; the last piece has none. */
  function Blocks(text: string): (blocks: seq<string>)
    ensures blocks != [] && Find(blocks[|blocks| - 1], BOUNDARY).None?
  {
    match Find(text, BOUNDARY)
    case None => [text]
    case Some(i) => [text[..i]] + Blocks(text[i + 2..])
  }

  function Complete(text: string): seq<string> {
    Blocks(text)[..|Blocks(text)| - 1]
  }

  function Leftover(text: string): string {
    Blocks(text)[|Blocks(text)| - 1]
  }

  /** What a parser that sees the whole text at once dispatches. */
  function ParseWhole(json: string -> Option<Json>, text: string): Seen {
    DispatchAll(json, Seen([], true), Blocks(text))
  }

  /** replace(/\r\n/g, "\n") */
  function Normalize(s: string): string {
    if |s| < 2 then s
    else if s[0] == '\r' && s[1] == '\n' then "\n" + Normalize(s[2..])
    else [s[0]] + Normalize(s[1..])
  }

  function NormalizeEach(chunks: seq<string>): string {
    if chunks == [] then "" else NormalizeEach(chunks[..|chunks| - 1]) + Normalize(chunks[|chunks| - 1])
  }

  // ---------------------------------------------------------------- the incremental parser

  lemma {:induction false} DispatchAllConcat(json: string -> Option<Json>, seen: Seen, a: seq<string>, b: seq<string>)
    ensures DispatchAll(json, seen, a + b) == DispatchAll(json, DispatchAll(json, seen, a), b)
    decreases |a|
  {
    if a == [] {
      assert a + b == b;
    } else {
      assert (a + b)[1..] == a[1..] + b;
      DispatchAllConcat(json, Dispatch(json, seen, a[0]), a[1..], b);
    }
  }

  lemma {:induction false} FailureSticks(json: string -> Option<Json>, seen: Seen, blocks: seq<string>)
    requires !seen.ok
    ensures DispatchAll(json, seen, blocks) == seen
  {
    if blocks == [] {
    } else {
      FailureSticks(json, seen, blocks[1..]);
    }
  }

  /** More text after a boundary does not move it. */
  lemma BoundaryStays(a: string, b: string)
    requires Find(a, BOUNDARY).Some?
    ensures Find(a + b, BOUNDARY) == Find(a, BOUNDARY)
  {
    var i := Find(a, BOUNDARY).value;
    assert (a + b)[i..i + 2] == a[i..i + 2];
    forall j | 0 <= j < i
      ensures !OccursAt(a + b, BOUNDARY, j)
    {
      assert (a + b)[j..j + 2] == a[j..j + 2];
      assert !OccursAt(a, BOUNDARY, j);
    }
    FoundIsFound(a + b, BOUNDARY, i);
  }

  /** One boundary further. */
  lemma OneBlock(buffer: string, i: nat)
    requires Find(buffer, BOUNDARY) == Some(i)
    ensures Complete(buffer) == [buffer[..i]] + Complete(buffer[i + 2..])
    ensures Leftover(buffer) == Leftover(buffer[i + 2..])
    ensures Blocks(buffer) == [buffer[..i]] + Blocks(buffer[i + 2..])
  {
    assert Blocks(buffer) == [buffer[..i]] + Blocks(buffer[i + 2..]);
  }

  lemma AssocThree(a: seq<string>, b: seq<string>, c: seq<string>)
    ensures a + b + c == a + (b + c)
  {
  }

  /** More text only reopens the last block. */
  lemma {:induction false} BlocksAppend(a: string, b: string)
    ensures Blocks(a + b) == Complete(a) + Blocks(Leftover(a) + b)
    decreases |a|
  {
    match Find(a, BOUNDARY) {
      case None =>
      case Some(i) =>
        BoundaryStays(a, b);
        OneBlock(a, i);
        OneBlock(a + b, i);
        assert (a + b)[..i] == a[..i] && (a + b)[i + 2..] == a[i + 2..] + b;
        BlocksAppend(a[i + 2..], b);
        AssocThree([a[..i]], Complete(a[i + 2..]), Blocks(Leftover(a) + b));
    }
  }

  lemma InitOfConcat(a: seq<string>, b: seq<string>)
    requires b != []
    ensures (a + b)[..|a + b| - 1] == a + b[..|b| - 1] && (a + b)[|a + b| - 1] == b[|b| - 1]
  {
  }

  lemma CompleteAppend(a: string, b: string)
    ensures Complete(a + b) == Complete(a) + Complete(Leftover(a) + b)
    ensures Leftover(a + b) == Leftover(Leftover(a) + b)
  {
    BlocksAppend(a, b);
    InitOfConcat(Complete(a), Blocks(Leftover(a) + b));
  }

  lemma NoBlock(buffer: string)
    requires Find(buffer, BOUNDARY).None?
    ensures Complete(buffer) == [] && Leftover(buffer) == buffer
  {
  }

  /** The loop of dispatch over the lines of a block. */
  method ReadLines(lines: seq<string>) returns (eventName: string, data: seq<string>)
    ensures eventName == NameOf(lines, "message") && data == DataOf(lines)
  {
    eventName, data := "message", [];
    for i := 0 to |lines|
      invariant NameOf(lines[i..], eventName) == NameOf(lines, "message")
      invariant data + DataOf(lines[i..]) == DataOf(lines)
    {
      var line := lines[i];
      assert lines[i..][1..] == lines[i + 1..];
      if StartsWith(line, EVENT) {
        eventName := Trim(line[6..], ScriptSpace);
      }
      if StartsWith(line, DATA) {
        data := data + [TrimLeft(line[5..], ScriptSpace)];
      }
    }
  }

  /** The buffer and the event sink of one streaming request. */
  class StreamParser {
    const json: string -> Option<Json>
    var buffer: string
    var events: seq<Event>
    var failed: bool

    constructor (json: string -> Option<Json>)
      ensures this.json == json && buffer == "" && events == [] && !failed
    {
      this.json := json;
      buffer, events, failed := "", [], false;
    }

    function Sink(): Seen
      reads this
    {
      Seen(events, !failed)
    }

    /** dispatch: one block of lines, without its boundary. */
    method DispatchBlock(block: string)
      requires !failed
      modifies this`events, this`failed
      ensures Sink() == Dispatch(json, old(Sink()), block)
    {
      if Trim(block, ScriptSpace) == "" {
        return;
      }
      var eventName, data := ReadLines(Lines(block));
      var payload := Join(data);
      if payload != "" {
        Notify(eventName, payload);
      }
    }

    /** The end of dispatch: parse the payload and call onEvent. */
    method Notify(eventName: string, payload: string)
      requires !failed
      modifies this`events, this`failed
      ensures Sink() == Deliver(json, old(Sink()), eventName, payload)
    {
      if payload == DONE {
        events := events + [Done];
        return;
      }
      var parsed := json(payload);
      if parsed.None? {
        failed := true;
        return;
      }
      if eventName == META {
        events := events + [Meta(parsed.value)];
      } else if eventName == RESULT {
        events := events + [Outcome(parsed.value)];
      } else {
        events := events + [Chunk(parsed.value)];
      }
    }

    /** One chunk: dispatch every complete block of the buffer and keep the rest. */
    method Feed(chunk: string)
      requires !failed
      modifies this`buffer, this`events, this`failed
      ensures var text := old(buffer) + Normalize(chunk);
              && Sink() == DispatchAll(json, old(Sink()), Complete(text))
              && (!failed ==> buffer == Leftover(text) && Find(buffer, BOUNDARY).None?)
    {
      buffer := buffer + Normalize(chunk);
      ghost var text, start := buffer, Sink();
      var boundary := Find(buffer, BOUNDARY);
      while boundary.Some?
        invariant !failed && boundary == Find(buffer, BOUNDARY)
        invariant DispatchAll(json, Sink(), Complete(buffer)) == DispatchAll(json, start, Complete(text))
        invariant Leftover(buffer) == Leftover(text)
        decreases |buffer|
      {
        var i := boundary.value;
        OneBlock(buffer, i);
        ghost var rest := Complete(buffer[i + 2..]);
        assert ([buffer[..i]] + rest)[1..] == rest;
        DispatchBlock(buffer[..i]);
        if failed {
          FailureSticks(json, Sink(), rest);
          return;
        }
        buffer := buffer[i + 2..];
        boundary := Find(buffer, BOUNDARY);
      }
      NoBlock(buffer);
    }
  }

  /** What the complete blocks of a text dispatch. */
  function Through(json: string -> Option<Json>, text: string): Seen {
    DispatchAll(json, Seen([], true), Complete(text))
  }

  lemma OneMoreChunk(json: string -> Option<Json>, chunks: seq<string>, n: nat)
    requires n < |chunks|
    ensures var (before, after) := (NormalizeEach(chunks[..n]), NormalizeEach(chunks[..n + 1]));
            var text := Leftover(before) + Normalize(chunks[n]);
            && DispatchAll(json, Through(json, before), Complete(text)) == Through(json, after)
            && Leftover(text) == Leftover(after)
  {
    var before, more := NormalizeEach(chunks[..n]), Normalize(chunks[n]);
    assert chunks[..n + 1][..n] == chunks[..n];
    CompleteAppend(before, more);
    DispatchAllConcat(json, Seen([], true), Complete(before), Complete(Leftover(before) + more));
  }

  lemma NormalizeEachConcat(a: seq<string>, b: seq<string>)
    ensures NormalizeEach(a + b) == NormalizeEach(a) + NormalizeEach(b)
    decreases |b|
  {
    if b == [] {
      assert a + b == a;
    } else {
      assert (a + b)[..|a + b| - 1] == a + b[..|b| - 1];
      NormalizeEachConcat(a, b[..|b| - 1]);
    }
  }

  lemma NormalizeEachSplits(chunks: seq<string>, n: nat) returns (a: string, b: string)
    requires n <= |chunks|
    ensures a == NormalizeEach(chunks[..n]) && NormalizeEach(chunks) == a + b
  {
    a, b := NormalizeEach(chunks[..n]), NormalizeEach(chunks[n..]);
    NormalizeEachConcat(chunks[..n], chunks[n..]);
    assert chunks[..n] + chunks[n..] == chunks;
  }

  lemma NothingAfterFailure(json: string -> Option<Json>, blocks: seq<string>, rest: seq<string>)
    requires !DispatchAll(json, Seen([], true), blocks).ok
    ensures DispatchAll(json, Seen([], true), blocks + rest) == DispatchAll(json, Seen([], true), blocks)
  {
    DispatchAllConcat(json, Seen([], true), blocks, rest);
    FailureSticks(json, DispatchAll(json, Seen([], true), blocks), rest);
  }

  /** Once a block of `a` has failed, no text behind it is dispatched. */
  lemma FailureIsFinal(json: string -> Option<Json>, a: string, b: string)
    requires !DispatchAll(json, Seen([], true), Complete(a)).ok
    ensures ParseWhole(json, a + b) == DispatchAll(json, Seen([], true), Complete(a))
  {
    BlocksAppend(a, b);
    NothingAfterFailure(json, Complete(a), Blocks(Leftover(a) + b));
  }

  lemma StreamFails(json: string -> Option<Json>, chunks: seq<string>, n: nat)
    requires n <= |chunks| && !Through(json, NormalizeEach(chunks[..n])).ok
    ensures ParseWhole(json, NormalizeEach(chunks)) == Through(json, NormalizeEach(chunks[..n]))
  {
    var a, b := NormalizeEachSplits(chunks, n);
    FailureIsFinal(json, a, b);
  }

  lemma LastBlock(json: string -> Option<Json>, text: string)
    ensures ParseWhole(json, text) == Dispatch(json, Through(json, text), Leftover(text))
  {
    assert Blocks(text) == Complete(text) + [Leftover(text)];
    DispatchAllConcat(json, Seen([], true), Complete(text), [Leftover(text)]);
    assert [Leftover(text)][1..] == [];
  }

  /** The read loop of testStreamRequest: whatever the cut into chunks, the events are those of a
      parser that sees the concatenation of the normalised chunks at once. */
  method ReadStream(parser: StreamParser, chunks: seq<string>)
    requires parser.buffer == "" && parser.events == [] && !parser.failed
    modifies parser
    ensures parser.Sink() == ParseWhole(parser.json, NormalizeEach(chunks))
  {
    ghost var json := parser.json;
    for n := 0 to |chunks|
      invariant !parser.failed
      invariant parser.Sink() == Through(json, NormalizeEach(chunks[..n]))
      invariant parser.buffer == Leftover(NormalizeEach(chunks[..n]))
    {
      OneMoreChunk(json, chunks, n);
      parser.Feed(chunks[n]);
      if parser.failed {
        StreamFails(json, chunks, n + 1);
        return;
      }
    }
    assert chunks[..|chunks|] == chunks;
    LastBlock(json, NormalizeEach(chunks));
    if Trim(parser.buffer, ScriptSpace) != "" {
      parser.DispatchBlock(parser.buffer);
    }
  }
}
