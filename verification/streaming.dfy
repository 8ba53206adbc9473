/** translate_stream of app/multi_provider.py piped into StreamAccumulator of app/main.py. */
module Streaming {
  import opened Common
  import opened Text
  import opened Anthropic
  import opened Ordering

  /** Upstream events, parsed. Only a start of a tool_use block is a ToolStart. */
  datatype Event =
    | MessageStart(id: string, input: Option<int>)
    | ToolStart(index: int, id: string, name: string)
    | TextDelta(text: string)
    | ThinkingDelta(thinking: string)
    | JsonDelta(index: int, partial: string)
    | MessageDelta(stop: Option<StopReason>, output: Option<int>)
    | ErrorEvent(error: string)
    | Ignored

  /** One entry of delta.tool_calls; a missing string is empty. */
  datatype Piece = Piece(index: int, id: string, name: string, arguments: string)

  /** A delta; some providers call the reasoning text `reasoning`, others `reasoning_content`. */
  datatype Delta = Delta(content: string, reasoningContent: string, reasoning: string, calls: seq<Piece>)

  datatype Chunk = Chunk(id: string, usage: Usage, finish: Option<Finish>, delta: Delta, error: Option<string>)

  const NO_USAGE := Usage(None, None, None)
  const NO_DELTA := Delta("", "", "", [])

  // ---------------------------------------------------------------- the translator

  datatype Cursor = Cursor(messageId: string, inputTokens: Option<int>, toolIndexes: map<int, int>)

  const START := Cursor("", None, map[])

  function Advance(c: Cursor, e: Event): Cursor {
    match e
    case MessageStart(id, input) => c.(messageId := id, inputTokens := input)
    case ToolStart(index, _, _) => c.(toolIndexes := c.toolIndexes[index := |c.toolIndexes|])
    case _ => c
  }

  function Emit(c: Cursor, e: Event): Option<Chunk> {
    match e
    case MessageStart(id, input) => Some(Chunk(id, Usage(input, None, None), None, NO_DELTA, None))
    case ToolStart(index, id, name) =>
      Some(Chunk(c.messageId, NO_USAGE, None, Delta("", "", "", [Piece(|c.toolIndexes|, id, name, "")]), None))
    case TextDelta(text) => Some(Chunk(c.messageId, NO_USAGE, None, Delta(text, "", "", []), None))
    case ThinkingDelta(thinking) => Some(Chunk(c.messageId, NO_USAGE, None, Delta("", thinking, "", []), None))
    case JsonDelta(index, partial) =>
      var call := if index in c.toolIndexes then c.toolIndexes[index] else 0;
      Some(Chunk(c.messageId, NO_USAGE, None, Delta("", "", "", [Piece(call, "", "", partial)]), None))
    case MessageDelta(stop, output) =>
      Some(Chunk(c.messageId, Usage(c.inputTokens, output, Total(c.inputTokens, output)), FinishOf(stop), NO_DELTA, None))
    case ErrorEvent(error) => Some(Chunk("", NO_USAGE, None, NO_DELTA, Some(error)))
    case Ignored => None
  }

  /** The local state of translate_stream. */
  class StreamTranslator {
    var messageId: string
    var inputTokens: Option<int>
    var toolIndexes: map<int, int>

    constructor ()
      ensures State() == START
    {
      messageId, inputTokens, toolIndexes := "", None, map[];
    }

    function State(): Cursor
      reads this
    {
      Cursor(messageId, inputTokens, toolIndexes)
    }

    method Translate(event: Event) returns (chunk: Option<Chunk>)
      modifies this
      ensures State() == Advance(old(State()), event) && chunk == Emit(old(State()), event)
    {
      match event
      case MessageStart(id, input) =>
        messageId, inputTokens := id, input;
        return Some(Chunk(messageId, Usage(inputTokens, None, None), None, NO_DELTA, None));
      case ToolStart(index, id, name) =>
        toolIndexes := toolIndexes[index := |toolIndexes|];
        var piece := Piece(toolIndexes[index], id, name, "");
        return Some(Chunk(messageId, NO_USAGE, None, Delta("", "", "", [piece]), None));
      case TextDelta(text) =>
        return Some(Chunk(messageId, NO_USAGE, None, Delta(text, "", "", []), None));
      case ThinkingDelta(thinking) =>
        return Some(Chunk(messageId, NO_USAGE, None, Delta("", thinking, "", []), None));
      case JsonDelta(index, partial) =>
        var call := if index in toolIndexes then toolIndexes[index] else 0;
        return Some(Chunk(messageId, NO_USAGE, None, Delta("", "", "", [Piece(call, "", "", partial)]), None));
      case MessageDelta(stop, output) =>
        var usage := Usage(inputTokens, output, Total(inputTokens, output));
        return Some(Chunk(messageId, usage, FinishOf(stop), NO_DELTA, None));
      case ErrorEvent(error) =>
        return Some(Chunk("", NO_USAGE, None, NO_DELTA, Some(error)));
      case Ignored =>
        return None;
    }
  }

  // ---------------------------------------------------------------- the accumulator

  datatype Account = Account(id: string, content: seq<string>, reasoning: seq<string>, finish: Option<Finish>,
                             usage: Usage, error: Option<string>, calls: map<int, ToolCall>)

  const EMPTY := Account("", [], [], None, NO_USAGE, None, map[])

  function AddPiece(calls: map<int, ToolCall>, p: Piece): map<int, ToolCall> {
    var current := if p.index in calls then calls[p.index] else ToolCall("", "", "");
    calls[p.index := ToolCall(if p.id != "" then p.id else current.id, current.name + p.name, current.arguments + p.arguments)]
  }

  function AddPieces(calls: map<int, ToolCall>, pieces: seq<Piece>): map<int, ToolCall>
    decreases |pieces|
  {
    if pieces == [] then calls else AddPiece(AddPieces(calls, pieces[..|pieces| - 1]), pieces[|pieces| - 1])
  }

  /** `newer` where it says something. */
  function Latest<T>(newer: Option<T>, older: Option<T>): Option<T> {
    if newer.Some? then newer else older
  }

  function Push(parts: seq<string>, text: string): seq<string> {
    if text == "" then parts else parts + [text]
  }

  function Thought(delta: Delta): string {
    if delta.reasoningContent != "" then delta.reasoningContent else delta.reasoning
  }

  function Absorb(a: Account, c: Chunk): Account {
    Account(if c.id != "" then c.id else a.id,
            Push(a.content, c.delta.content), Push(a.reasoning, Thought(c.delta)),
            Latest(c.finish, a.finish),
            Usage(Latest(c.usage.prompt, a.usage.prompt), Latest(c.usage.completion, a.usage.completion), Latest(c.usage.total, a.usage.total)),
            Latest(c.error, a.error),
            AddPieces(a.calls, c.delta.calls))
  }

  /** A line of a chunk: the closing mark, an event, or something that is passed over: no data line,
      an empty one, or one that does not parse to an object. */
  datatype Line = DoneLine | Data(event: Chunk) | Skipped

  function AbsorbLines(a: Account, lines: seq<Line>): Account
    decreases |lines|
  {
    if lines == [] then a
    else
      var (init, last) := (AbsorbLines(a, lines[..|lines| - 1]), lines[|lines| - 1]);
      if last.Data? then Absorb(init, last.event) else init
  }

  lemma OneMoreLine(a: Account, lines: seq<Line>, i: nat)
    requires i < |lines|
    ensures AbsorbLines(a, lines[..i + 1]) ==
            if lines[i].Data? then Absorb(AbsorbLines(a, lines[..i]), lines[i].event) else AbsorbLines(a, lines[..i])
    ensures lines[..i + 1] == lines[..i] + [lines[i]]
  {
    assert lines[..i + 1][..i] == lines[..i];
  }

  class StreamAccumulator {
    var responseId: string
    var contentParts: seq<string>
    var reasoningParts: seq<string>
    var finishReason: Option<Finish>
    var promptTokens: Option<int>
    var completionTokens: Option<int>
    var totalTokens: Option<int>
    var error: Option<string>
    var toolCalls: map<int, ToolCall>

    constructor ()
      ensures State() == EMPTY
    {
      responseId, contentParts, reasoningParts, finishReason := "", [], [], None;
      promptTokens, completionTokens, totalTokens, error, toolCalls := None, None, None, None, map[];
    }

    function State(): Account
      reads this
    {
      Account(responseId, contentParts, reasoningParts, finishReason,
              Usage(promptTokens, completionTokens, totalTokens), error, toolCalls)
    }

    /** consume: the lines of one chunk. */
    method Consume(lines: seq<Line>) returns (done: bool, emitted: bool)
      modifies this
      ensures State() == AbsorbLines(old(State()), lines)
      ensures done <==> DoneLine in lines
      ensures emitted <==> exists line <- lines :: line.Data? && line.event.delta != NO_DELTA
    {
      done, emitted := false, false;
      for i := 0 to |lines|
        invariant State() == AbsorbLines(old(State()), lines[..i])
        invariant done <==> DoneLine in lines[..i]
        invariant emitted <==> exists line <- lines[..i] :: line.Data? && line.event.delta != NO_DELTA
      {
        OneMoreLine(old(State()), lines, i);
        match lines[i] {
          case DoneLine =>
            done := true;
          case Data(event) =>
            var more := ConsumeEvent(event);
            emitted := emitted || more;
          case Skipped =>
        }
      }
      assert lines[..|lines|] == lines;
    }

    /** One parsed data line of a chunk. */
    method ConsumeEvent(event: Chunk) returns (emitted: bool)
      modifies this
      ensures State() == Absorb(old(State()), event)
      ensures emitted <==> event.delta != NO_DELTA
    {
      if event.id != "" {
        responseId := event.id;
      }
      if event.error.Some? {
        error := event.error;
      }
      ConsumeUsage(event.usage);
      if event.finish.Some? {
        finishReason := event.finish;
      }
      emitted := ConsumeDelta(event.delta);
    }

    method ConsumeUsage(usage: Usage)
      modifies this`promptTokens, this`completionTokens, this`totalTokens
      ensures promptTokens == Latest(usage.prompt, old(promptTokens))
      ensures completionTokens == Latest(usage.completion, old(completionTokens))
      ensures totalTokens == Latest(usage.total, old(totalTokens))
    {
      if usage.prompt.Some? {
        promptTokens := usage.prompt;
      }
      if usage.completion.Some? {
        completionTokens := usage.completion;
      }
      if usage.total.Some? {
        totalTokens := usage.total;
      }
    }

    method ConsumeDelta(delta: Delta) returns (emitted: bool)
      modifies this`contentParts, this`reasoningParts, this`toolCalls
      ensures contentParts == Push(old(contentParts), delta.content)
      ensures reasoningParts == Push(old(reasoningParts), Thought(delta))
      ensures toolCalls == AddPieces(old(toolCalls), delta.calls)
      ensures emitted <==> delta != NO_DELTA
    {
      emitted := false;
      if delta.content != "" {
        contentParts := contentParts + [delta.content];
        emitted := true;
      }
      var reasoning := if delta.reasoningContent != "" then delta.reasoningContent else delta.reasoning;
      if reasoning != "" {
        reasoningParts := reasoningParts + [reasoning];
        emitted := true;
      }
      if delta.calls != [] {
        ConsumeCalls(delta.calls);
        emitted := true;
      }
    }

    /** The loop over delta.tool_calls. */
    method ConsumeCalls(pieces: seq<Piece>)
      modifies this`toolCalls
      ensures toolCalls == AddPieces(old(toolCalls), pieces)
    {
      for i := 0 to |pieces|
        invariant toolCalls == AddPieces(old(toolCalls), pieces[..i])
      {
        assert pieces[..i + 1][..i] == pieces[..i];
        var piece := pieces[i];
        if piece.index !in toolCalls {
          toolCalls := toolCalls[piece.index := ToolCall("", "", "")];
        }
        var current := toolCalls[piece.index];
        if piece.id != "" {
          current := current.(id := piece.id);
        }
        current := current.(name := current.name + piece.name, arguments := current.arguments + piece.arguments);
        toolCalls := toolCalls[piece.index := current];
      }
      assert pieces[..|pieces|] == pieces;
    }
  }

  // ---------------------------------------------------------------- both together

  function Receive(a: Account, chunk: Option<Chunk>): Account {
    if chunk.None? then a else Absorb(a, chunk.value)
  }

  function Run(events: seq<Event>): (Cursor, Account) {
    if events == [] then (START, EMPTY)
    else
      var ((cursor, account), last) := (Run(events[..|events| - 1]), events[|events| - 1]);
      (Advance(cursor, last), Receive(account, Emit(cursor, last)))
  }

  /** The chunks sent upstream events are translated to, in order. */
  function Chunks(events: seq<Event>): seq<Chunk> {
    if events == [] then []
    else
      var (init, chunk) := (events[..|events| - 1], Emit(Run(events[..|events| - 1]).0, events[|events| - 1]));
      if chunk.None? then Chunks(init) else Chunks(init) + [chunk.value]
  }

  lemma OneLineCounts(a: Account, line: Line)
    ensures AbsorbLines(a, [line, Skipped]) == if line.Data? then Absorb(a, line.event) else a
  {
    var lines := [line, Skipped];
    OneMoreLine(a, lines, 0);
    OneMoreLine(a, lines, 1);
    assert lines[..2] == lines && lines[..0] == [];
  }

  /** The loop of generate over the translated stream: every chunk is a data line and a blank one, and
      is consumed and passed on; the closing mark is consumed but not passed on. */
  method Relay(events: seq<Event>) returns (accumulator: StreamAccumulator, forwarded: seq<Chunk>)
    ensures accumulator.State() == Run(events).1
    ensures forwarded == Chunks(events)
  {
    var translator := new StreamTranslator();
    accumulator := new StreamAccumulator();
    forwarded := [];
    for i := 0 to |events|
      invariant Run(events[..i]) == (translator.State(), accumulator.State())
      invariant forwarded == Chunks(events[..i])
      invariant translator != accumulator as object
      modifies translator, accumulator
    {
      assert events[..i + 1][..i] == events[..i];
      var chunk := translator.Translate(events[i]);
      if chunk.Some? {
        OneLineCounts(accumulator.State(), Data(chunk.value));
        var done, _ := accumulator.Consume([Data(chunk.value), Skipped]);
        if !done {
          forwarded := forwarded + [chunk.value];
        }
      }
    }
    assert events[..|events|] == events;
    OneLineCounts(accumulator.State(), DoneLine);
    var _, _ := accumulator.Consume([DoneLine, Skipped]);
  }

  /** response_payload, with the token counts as they were reported. */
  function Payload(a: Account): Completion {
    Completion(a.id, OrNone(Concat(a.content)), InKeyOrder(a.calls), a.finish, a.usage)
  }

  // ---------------------------------------------------------------- token counts

  function PartsSize(parts: seq<Part>): nat {
    if parts == [] then 0
    else
      var (init, last) := (PartsSize(parts[..|parts| - 1]), parts[|parts| - 1]);
      if last.NotADict? then init else init + |last.text|
  }

  /** Characters of the text in a message; parts without text count nothing. */
  function TextSize(message: Message): nat {
    if message.Malformed? then 0
    else match message.content
      case Str(text) => |text|
      case Parts(parts) => PartsSize(parts)
      case _ => 0
  }

  function TextSizes(messages: seq<Message>): nat {
    if messages == [] then 0 else TextSizes(messages[..|messages| - 1]) + TextSize(messages[|messages| - 1])
  }

  /** A token for every four characters begun. */
  function TokensFor(size: nat): (tokens: nat)
    ensures 4 * (tokens - 1) < size <= 4 * tokens
  {
    (size + 3) / 4
  }

  function AtLeastOne(tokens: int): int {
    if tokens < 1 then 1 else tokens
  }

  method SumParts(parts: seq<Part>) returns (size: nat)
    ensures size == PartsSize(parts)
  {
    size := 0;
    for i := 0 to |parts|
      invariant size == PartsSize(parts[..i])
    {
      assert parts[..i + 1][..i] == parts[..i];
      if !parts[i].NotADict? {
        size := size + |parts[i].text|;
      }
    }
    assert parts[..|parts|] == parts;
  }

  /** estimate_requested_tokens; `limit` is the requested number of output tokens, 0 when there is none. */
  method EstimateRequestedTokens(messages: seq<Message>, limit: int) returns (tokens: int)
    ensures tokens == AtLeastOne(TokensFor(TextSizes(messages)) + limit)
    ensures tokens >= 1 && (tokens > 1 ==> 4 * (tokens - limit - 1) < TextSizes(messages) <= 4 * (tokens - limit))
  {
    var textSize := 0;
    for i := 0 to |messages|
      invariant textSize == TextSizes(messages[..i])
    {
      assert messages[..i + 1][..i] == messages[..i];
      if !messages[i].Malformed? {
        match messages[i].content {
          case Str(text) =>
            textSize := textSize + |text|;
          case Parts(parts) =>
            var size := SumParts(parts);
            textSize := textSize + size;
          case _ =>
        }
      }
    }
    assert messages[..|messages|] == messages;
    tokens := AtLeastOne(TokensFor(textSize) + limit);
  }

  /** What StreamAccumulator.usage reports. */
  datatype Billing = Billing(prompt: int, completion: int, total: int, estimated: bool)

  function Bill(a: Account, estimate: int, limit: int): Billing {
    var prompt := if a.usage.prompt.Some? then a.usage.prompt.value else AtLeastOne(estimate - limit);
    var completion :=
      if a.usage.completion.Some? then a.usage.completion.value else TokensFor(|Concat(a.content) + Concat(a.reasoning)|);
    Billing(prompt, completion, if a.usage.total.Some? then a.usage.total.value else prompt + completion,
            a.usage.prompt.None? || a.usage.completion.None?)
  }

  lemma {:induction false} SizesAdd(a: seq<Message>, b: seq<Message>)
    ensures TextSizes(a + b) == TextSizes(a) + TextSizes(b)
    decreases |b|
  {
    if b == [] {
      assert a + b == a;
    } else {
      assert (a + b)[..|a + b| - 1] == a + b[..|b| - 1];
      SizesAdd(a, b[..|b| - 1]);
    }
  }
}
